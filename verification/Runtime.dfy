/** The whole single-threaded runtime: the switcher, the event loop with its timers and epoll
    registrations, channels, and coroutines that yield to be resumed by hand.  A step is what
    happens between two points at which PHP code, or the event loop, decides what comes next. */
module Runtime {
  import S = SwitchSpec
  import C = ChannelSpec

  /** Where a coroutine stands.  Ready: it runs, or waits for the return of a coroutine it
      resumed; the others: it is inside the call that suspended it.  A channel call that waits
      may have a timer. */
  datatype Block = Ready | InSleep(timer: int) | InPoll(fd: int) | InChannel(ch: int, alarm: C.Option) | InUserYield

  const NOMORE: int := -1

  /** What a timer does when it fires: resume a coroutine, or call PHP code and return
      `period`, which is NOMORE for an event that fires once and for others the milliseconds
      after which it is due again, positive or not. */
  datatype Proc = Wakes(cid: int) | Calls(period: int)

  datatype Timer = Timer(proc: Proc, due: int)

  /** The epoll instance: which coroutine waits for which descriptor, and how often
      wait_event has counted up. */
  datatype Poll = Closed | Open(registered: map<int, int>, eventNum: int)

  /** Where main stands in event_wait. */
  datatype Loop =
    | Outside
    | Waiting                                   // about to call epoll_wait
    | Dispatching(rest: seq<int>)               // cids of the reports still to be handled
    | Passing(maxId: int)                       // in process_time_event, between events
    | Firing(maxId: int, id: int, proc: Proc)   // in the callback of this event

  datatype World = World(
    sw: S.State,
    block: map<int, Block>,      // of every live coroutine
    now: int,
    timers: map<int, Timer>,     // the timer list by id
    nextTimer: int,
    poll: Poll,
    chans: map<int, C.Sys>,
    yielded: set<int>,           // user_yield_coros
    loop: Loop)

  /** BadResume: this coroutine was resumed and is not suspended.  FreedTimer: this event is
      put off, and its own callback has deleted it.  Stuck: anything else that the machine has
      no meaning for; BaseStep shows that it never happens. */
  datatype Outcome = Ok(w: World) | BadResume(cid: int) | FreedTimer(id: int) | Stuck

  datatype Action =
    | Compute(regs: S.Registers)
    | Create(top: int, frame: int)
    | End
    | Sleep(delay: int)
    | UserYield
    | UserResume(cid: int)
    | WaitEvent(fd: int)
    | NewChannel(ch: int, capacity: nat)
    | Push(ch: int, d: C.Datum, timeout: int)
    | Pop(ch: int, timeout: int)
    | Land                        // a resumed coroutine goes on inside push or pop
    | StartTimer(delay: int, period: int)
    | CancelTimer(id: int)
    | Tick(ms: nat)
    | EnterLoop
    | Reported(fds: seq<int>)     // epoll_wait returns
    | DispatchNext
    | DispatchDone
    | Fire(id: int)
    | FireDone
    | PassDone

  // ----- helpers -----------------------------------------------------------------------

  predicate InMain(w: World) {
    w.sw.active == []
  }

  /** The running coroutine, or 0 for main. */
  function Self(w: World): int {
    if InMain(w) then 0 else S.Top(w.sw)
  }

  predicate At(block: map<int, Block>, c: int, b: Block) {
    c in block && block[c] == b
  }

  /** `c` is inside a call of push or pop on this channel, with or without a timer. */
  predicate WaitsIn(block: map<int, Block>, c: int, ch: int) {
    c in block && block[c].InChannel? && block[c].ch == ch
  }

  /** PHP code is what runs next. */
  predicate AtUserCode(w: World) {
    if InMain(w) then w.loop.Outside? || (w.loop.Firing? && w.loop.proc.Calls?)
    else At(w.block, S.Top(w.sw), Ready)
  }

  predicate InCoroutine(w: World) {
    !InMain(w) && AtUserCode(w)
  }

  predicate Periodic(proc: Proc) {
    proc.Calls? && proc.period != NOMORE
  }

  /** Not an event that is due again at once. */
  predicate Lasting(proc: Proc) {
    Periodic(proc) ==> proc.period > 0
  }

  predicate IsFiring(w: World, id: int) {
    w.loop.Firing? && w.loop.id == id
  }

  predicate Due(w: World, id: int) {
    id in w.timers && w.timers[id].due <= w.now
  }

  // ----- switching ---------------------------------------------------------------------

  /** The running coroutine suspends itself in `b`. */
  function Suspend(w: World, b: Block): Outcome {
    if S.Legal(w.sw, S.Yield) then
      Ok(w.(sw := S.Step(w.sw, S.Yield), block := w.block[S.Top(w.sw) := b]))
    else Stuck
  }

  /** Coroutine::resume, and what the callee does first when it goes on: wait_event forgets
      its descriptor, push and pop continue with a step of their own. */
  function Resume(w: World, c: int): Outcome {
    if !S.Legal(w.sw, S.Resume(c)) then BadResume(c)
    else if c !in w.block || (w.block[c].InChannel? && w.block[c].ch !in w.chans) then Stuck
    else
      var v := w.(sw := S.Step(w.sw, S.Resume(c)));
      match w.block[c]
      case InChannel(ch, _) => Ok(v.(chans := w.chans[ch := w.chans[ch].(landing := C.Some(c))]))
      case InPoll(fd) => Ok(v.(block := w.block[c := Ready], poll := Forgotten(w.poll, fd)))
      case _ => Ok(v.(block := w.block[c := Ready]))
  }

  function Forgotten(poll: Poll, fd: int): Poll {
    if poll.Open? then poll.(registered := poll.registered - {fd}) else poll
  }

  function Opened(poll: Poll): Poll {
    if poll.Open? then poll else Open(map[], 0)
  }

  /** wait_event: an EPOLL_CTL_ADD of a registered descriptor fails, and nobody looks. */
  function Registered(poll: Poll, fd: int, c: int): Poll {
    var p := Opened(poll);
    Open(if fd in p.registered then p.registered else p.registered[fd := c], p.eventNum + 1)
  }

  function ArmTimer(w: World, proc: Proc, delay: int): World {
    w.(timers := w.timers[w.nextTimer := Timer(proc, w.now + delay)], nextTimer := w.nextTimer + 1)
  }

  /** What follows a step of channel `ch` made by the running coroutine `c`: it waits, with a
      timer if it asked for one, or it takes an entry from the other queue and resumes the
      coroutine named there, wherever that stands by now, or it goes on. */
  function AfterChannel(w: World, ch: int, s: C.Sys, c: int, timeout: int): Outcome {
    if c in s.waiting then ChannelWait(w.(chans := w.chans[ch := s]), ch, c, timeout)
    else if s.landing.Some? then Resume(w.(chans := w.chans[ch := s.(landing := C.None)]), s.landing.value)
    else Ok(w.(chans := w.chans[ch := s]))
  }

  function ChannelWait(w: World, ch: int, c: int, timeout: int): Outcome {
    if timeout > 0 then Suspend(ArmTimer(w, Wakes(c), timeout), InChannel(ch, C.Some(w.nextTimer)))
    else Suspend(w, InChannel(ch, C.None))
  }

  function UseChannel(w: World, ch: int, e: C.Event, timeout: int): Outcome {
    if ch in w.chans && C.Enabled(w.chans[ch], e) then
      AfterChannel(w, ch, C.Next(w.chans[ch], e), Self(w), timeout)
    else Stuck
  }

  // ----- steps -------------------------------------------------------------------------

  /** Who may take a step and when.  Timers may fire in any order and at any time, so that
      what holds of all runs holds whatever the clock does. */
  predicate Enabled(w: World, a: Action) {
    match a
    case Compute(_) => AtUserCode(w)
    case Create(_, _) => AtUserCode(w)
    case End => InCoroutine(w) && S.Legal(w.sw, S.End)
    case Sleep(_) => InCoroutine(w)
    case UserYield => InCoroutine(w)
    case UserResume(_) => AtUserCode(w)
    case WaitEvent(fd) => InCoroutine(w)
    case NewChannel(ch, capacity) => AtUserCode(w) && ch !in w.chans && capacity >= 1
    case Push(ch, _, _) => AtUserCode(w) && ch in w.chans && (InMain(w) ==> !C.Full(w.chans[ch].chan))
    case Pop(ch, _) => AtUserCode(w) && ch in w.chans && (InMain(w) ==> w.chans[ch].chan.data != [])
    case Land => !InMain(w) && S.Top(w.sw) in w.block && w.block[S.Top(w.sw)].InChannel?
    case StartTimer(_, _) => AtUserCode(w)
    case CancelTimer(_) => AtUserCode(w)
    case Tick(_) => true
    case EnterLoop => InMain(w) && w.loop == Outside
    case Reported(fds) =>
      && InMain(w) && w.loop == Waiting && w.poll.Open?
      && S.Distinct(fds) && forall fd :: fd in fds ==> fd in w.poll.registered
    case DispatchNext => InMain(w) && w.loop.Dispatching? && w.loop.rest != []
    case DispatchDone => InMain(w) && w.loop == Dispatching([])
    case Fire(id) => InMain(w) && w.loop.Passing? && id <= w.loop.maxId && id in w.timers
    case FireDone => InMain(w) && w.loop.Firing?
    case PassDone => InMain(w) && w.loop.Passing?
  }

  /** The callback of an event that is to be put off deletes the event. */
  predicate CancelsItself(w: World, a: Action) {
    a.CancelTimer? && IsFiring(w, a.id) && Periodic(w.loop.proc)
  }

  /** What PHP code owes in every run: one waiter per descriptor, no deletion of a timer that
      a sleep or a channel created nor, by its own callback, of the periodic timer that is
      firing. */
  predicate Careful(w: World, a: Action) {
    match a
    case WaitEvent(fd) => w.poll.Open? ==> fd !in w.poll.registered
    case CancelTimer(id) => (id in w.timers ==> w.timers[id].proc.Calls?) && !CancelsItself(w, a)
    case _ => true
  }

  /** A channel call that finds it must wait, with a timeout. */
  predicate TimedWait(w: World, a: Action) {
    match a
    case Push(ch, _, timeout) => timeout > 0 && ch in w.chans && C.Full(w.chans[ch].chan)
    case Pop(ch, timeout) => timeout > 0 && ch in w.chans && w.chans[ch].chan.data == []
    case _ => false
  }

  /** The single-waker discipline: no channel wait has a timeout. */
  predicate Disciplined(w: World, a: Action) {
    Careful(w, a) && !TimedWait(w, a)
  }

  /** What the clock decides, when it stands still but for the time spent in epoll_wait: a
      pass fires the newest due event it covers, and ends when none is due. */
  predicate Timely(w: World, a: Action) {
    match a
    case Tick(_) => InMain(w) && w.loop == Waiting
    case Fire(id) =>
      w.loop.Passing? && Due(w, id) && forall i :: i in w.timers && id < i <= w.loop.maxId ==> !Due(w, i)
    case PassDone => w.loop.Passing? && forall i :: i in w.timers && i <= w.loop.maxId ==> !Due(w, i)
    case _ => true
  }

  function Step(w: World, a: Action): Outcome
    requires Enabled(w, a)
  {
    match a
    case Compute(regs) => Ok(w.(sw := S.Step(w.sw, S.Compute(regs))))
    case Create(top, frame) =>
      var sw := S.Step(w.sw, S.Create(top, frame));
      Ok(w.(sw := sw, block := w.block[sw.lastCid := Ready]))
    case End => Ok(w.(sw := S.Step(w.sw, S.End), block := w.block - {S.Top(w.sw)}))
    case Sleep(delay) => Suspend(ArmTimer(w, Wakes(Self(w)), delay), InSleep(w.nextTimer))
    case UserYield => Suspend(w.(yielded := w.yielded + {Self(w)}), InUserYield)
    case UserResume(cid) =>
      if cid in w.yielded then Resume(w.(yielded := w.yielded - {cid}), cid) else Ok(w)
    case WaitEvent(fd) => Suspend(w.(poll := Registered(w.poll, fd, Self(w))), InPoll(fd))
    case NewChannel(ch, capacity) => Ok(w.(chans := w.chans[ch := C.Fresh(capacity)]))
    case Push(ch, d, timeout) => UseChannel(w, ch, C.CallPush(Self(w), d), timeout)
    case Pop(ch, timeout) => UseChannel(w, ch, C.CallPop(Self(w)), timeout)
    case Land => UseChannel(w.(block := w.block[Self(w) := Ready]), w.block[Self(w)].ch, C.Land, 0)
    case StartTimer(delay, period) => Ok(ArmTimer(w, Calls(period), delay))
    case CancelTimer(id) => Ok(w.(timers := w.timers - {id}))
    case Tick(ms) => Ok(w.(now := w.now + ms))
    case EnterLoop => Ok(w.(loop := Waiting, poll := Opened(w.poll)))
    case Reported(fds) =>
      Ok(w.(loop := Dispatching(seq(|fds|, i requires 0 <= i < |fds| =>
        assert fds[i] in fds; w.poll.registered[fds[i]]))))
    case DispatchNext => Resume(w.(loop := Dispatching(w.loop.rest[1..])), w.loop.rest[0])
    case DispatchDone => Ok(w.(loop := Passing(w.nextTimer - 1)))
    case Fire(id) =>
      var v := w.(loop := Firing(w.loop.maxId, id, w.timers[id].proc));
      if w.timers[id].proc.Wakes? then Resume(v, w.timers[id].proc.cid) else Ok(v)
    case FireDone =>
      if Freed(w) then FreedTimer(w.loop.id)
      else Ok(w.(loop := Passing(w.loop.maxId), timers := AfterCallback(w)))
    case PassDone =>
      if w.timers == map[] && w.poll.Open? && w.poll.eventNum == 0 then Ok(w.(loop := Outside, poll := Closed))
      else Ok(w.(loop := Waiting))
  }

  /** The event that fires is to be put off, but is no longer there. */
  predicate Freed(w: World) {
    w.loop.Firing? && Periodic(w.loop.proc) && w.loop.id !in w.timers
  }

  /** A periodic event is put off, any other deleted. */
  function AfterCallback(w: World): map<int, Timer>
    requires w.loop.Firing? && !Freed(w)
  {
    var id := w.loop.id;
    if !Periodic(w.loop.proc) then w.timers - {id}
    else w.timers[id := w.timers[id].(due := w.now + w.loop.proc.period)]
  }

  /** There is no event that would keep a pass from ending. */
  ghost predicate Punctual(w: World) {
    && (forall id {:trigger w.timers[id]} :: id in w.timers ==> Lasting(w.timers[id].proc))
    && (w.loop.Firing? ==> Lasting(w.loop.proc))
  }

  // ----- what holds in every run -------------------------------------------------------

  /** Live coroutines are those with a standing; the suspended ones are inside some call, the
      active ones are ready, but for a top one that has just been woken inside push or pop. */
  ghost predicate Stack(w: World) {
    && S.StackWf(w.sw)
    && (forall c {:trigger S.Live(w.sw, c)} {:trigger c in w.block} :: c in w.block <==> S.Live(w.sw, c))
    && (forall c {:trigger c in w.sw.parked} :: c in w.sw.parked ==> c in w.block && w.block[c] != Ready)
    && (forall c {:trigger w.block[c]} :: c in w.block && c !in w.sw.parked && !At(w.block, c, Ready) ==>
          !InMain(w) && c == S.Top(w.sw) && w.block[c].InChannel?)
  }

  /** Those that wait in a channel are those that stand in one of its calls, and who goes on
      there is the one who has control. */
  ghost predicate Landings(w: World) {
    && (forall ch {:trigger w.chans[ch]} :: ch in w.chans && w.chans[ch].landing.Some? ==>
          !InMain(w) && w.chans[ch].landing.value == S.Top(w.sw) && WaitsIn(w.block, S.Top(w.sw), ch))
    && (forall ch, c {:trigger c in w.chans[ch].waiting} ::
          ch in w.chans && c in w.chans[ch].waiting ==> WaitsIn(w.block, c, ch))
    && (forall ch, c {:trigger WaitsIn(w.block, c, ch)} :: WaitsIn(w.block, c, ch) ==>
          && ch in w.chans && c in w.chans[ch].waiting
          && (!InMain(w) && c == S.Top(w.sw) ==> w.chans[ch].landing == C.Some(c)))
  }

  ghost predicate Base(w: World) {
    Stack(w) && Landings(w)
  }

  /** Nobody has just been woken inside push or pop. */
  ghost predicate Quiet(w: World) {
    InMain(w) || At(w.block, S.Top(w.sw), Ready)
  }

  // ----- what holds in careful runs ----------------------------------------------------

  ghost predicate Ids(w: World) {
    && (forall id {:trigger w.timers[id]} :: id in w.timers ==> id < w.nextTimer)
    && (w.loop.Passing? || w.loop.Firing? ==> w.loop.maxId < w.nextTimer)
    && (w.loop.Firing? ==> w.loop.id <= w.loop.maxId)
    && (w.loop.Firing? && w.loop.id in w.timers ==> w.timers[w.loop.id].proc == w.loop.proc)
    && !Freed(w)
  }

  predicate Armed(w: World, c: int, id: int) {
    id in w.timers && w.timers[id].proc == Wakes(c) && !IsFiring(w, id)
  }

  /** Whoever is suspended in a call with a timer has that timer in the list. */
  ghost predicate Alarms(w: World) {
    && Ids(w)
    && (forall c, id {:trigger At(w.block, c, InSleep(id))} :: At(w.block, c, InSleep(id)) ==> Armed(w, c, id))
    && (forall c, ch, id {:trigger At(w.block, c, InChannel(ch, C.Some(id)))} ::
          c in w.sw.parked && At(w.block, c, InChannel(ch, C.Some(id))) ==> Armed(w, c, id))
  }

  /** Whoever waits for a descriptor has been counted. */
  ghost predicate Sockets(w: World) {
    && (w.loop != Outside ==> w.poll.Open?)
    && (w.poll.Open? ==> w.poll.eventNum >= 0)
    && (forall c, fd {:trigger At(w.block, c, InPoll(fd))} :: At(w.block, c, InPoll(fd)) ==>
          w.poll.Open? && w.poll.eventNum > 0)
  }

  // ----- what holds in disciplined runs ------------------------------------------------

  ghost predicate Orders(w: World) {
    forall ch {:trigger w.chans[ch]} :: ch in w.chans ==> C.Inv(w.chans[ch])
  }

  ghost predicate Sleepers(w: World) {
    && Ids(w)
    && (forall id {:trigger w.timers[id]} :: id in w.timers && w.timers[id].proc.Wakes? && !IsFiring(w, id) ==>
          At(w.block, w.timers[id].proc.cid, InSleep(id)))
    && (forall c, id {:trigger At(w.block, c, InSleep(id))} :: At(w.block, c, InSleep(id)) ==> Armed(w, c, id))
  }

  ghost predicate Polls(w: World) {
    && (w.loop != Outside ==> w.poll.Open?)
    && (w.poll.Open? ==>
          && (forall fd {:trigger fd in w.poll.registered} :: fd in w.poll.registered ==>
                At(w.block, w.poll.registered[fd], InPoll(fd)))
          && 0 <= w.poll.eventNum
          && (w.poll.registered != map[] ==> 0 < w.poll.eventNum))
    && (forall c, fd {:trigger At(w.block, c, InPoll(fd))} :: At(w.block, c, InPoll(fd)) ==>
          w.poll.Open? && fd in w.poll.registered && w.poll.registered[fd] == c)
  }

  ghost predicate Yields(w: World) {
    && (forall c {:trigger c in w.yielded} :: c in w.yielded ==> At(w.block, c, InUserYield))
    && (forall c {:trigger At(w.block, c, InUserYield)} :: At(w.block, c, InUserYield) ==> c in w.yielded)
  }

  ghost predicate Dispatches(w: World) {
    w.loop.Dispatching? ==>
      && S.Distinct(w.loop.rest)
      && (forall i {:trigger w.loop.rest[i]} :: 0 <= i < |w.loop.rest| ==>
            w.loop.rest[i] in w.block && w.block[w.loop.rest[i]].InPoll?)
  }

  ghost predicate Inv(w: World) {
    Base(w) && Orders(w) && Sleepers(w) && Polls(w) && Yields(w) && Dispatches(w)
  }
}

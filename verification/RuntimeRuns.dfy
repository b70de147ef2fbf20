/** Whole runs of the runtime, from its start. */
module RuntimeRuns {
  import S = SwitchSpec
  import C = ChannelSpec
  import opened Runtime
  import Bases = RuntimeBase
  import Cares = RuntimeCareful
  import Steps = RuntimeSteps

  ghost predicate Start(w: World) {
    && S.Init(w.sw)
    && w.block == map[] && w.timers == map[] && w.poll == Closed && w.chans == map[] && w.yielded == {}
    && w.nextTimer == 0 && w.loop == Outside
  }

  /** Each step of `steps` is taken where it can be taken, up to the first that fails. */
  ghost predicate Schedule(w: World, steps: seq<Action>)
    decreases |steps|
  {
    steps == [] ||
    (Enabled(w, steps[0]) && (Step(w, steps[0]).Ok? ==> Schedule(Step(w, steps[0]).w, steps[1..])))
  }

  /** A schedule of careful code. */
  ghost predicate CarefulSchedule(w: World, steps: seq<Action>)
    ensures CarefulSchedule(w, steps) ==> Schedule(w, steps)
    decreases |steps|
  {
    steps == [] ||
    (Enabled(w, steps[0]) && Careful(w, steps[0]) &&
     (Step(w, steps[0]).Ok? ==> CarefulSchedule(Step(w, steps[0]).w, steps[1..])))
  }

  /** A schedule within the single-waker discipline. */
  ghost predicate DisciplinedSchedule(w: World, steps: seq<Action>)
    ensures DisciplinedSchedule(w, steps) ==> CarefulSchedule(w, steps)
    decreases |steps|
  {
    steps == [] ||
    (Enabled(w, steps[0]) && Disciplined(w, steps[0]) &&
     (Step(w, steps[0]).Ok? ==> DisciplinedSchedule(Step(w, steps[0]).w, steps[1..])))
  }

  ghost function Run(w: World, steps: seq<Action>): Outcome
    requires Schedule(w, steps)
    decreases |steps|
  {
    if steps == [] then Ok(w)
    else
      var o := Step(w, steps[0]);
      if o.Ok? then Run(o.w, steps[1..]) else o
  }

  // ----- any run -----------------------------------------------------------------------

  lemma StartIsGood(w: World)
    requires Start(w)
    ensures Inv(w) && Cares.Sound(w)
  {
    assert forall c, b :: !At(w.block, c, b);
  }

  lemma {:induction false} BaseRun(w: World, steps: seq<Action>)
    requires Base(w) && Schedule(w, steps)
    ensures Run(w, steps).Ok? ==> Base(Run(w, steps).w)
    ensures Run(w, steps) != Stuck
    decreases |steps|
  {
    if steps != [] {
      Bases.BaseStep(w, steps[0]);
      if Step(w, steps[0]).Ok? {
        BaseRun(Step(w, steps[0]).w, steps[1..]);
      }
    }
  }

  /** A run of any code, timed channel waits and all, can fail in two ways only: by the resume
      of a coroutine that is not suspended, and by the putting off of an event that its own
      callback has deleted.  Yields, ends and channel calls always find the switcher and the
      channel as they need them. */
  lemma OnlyTwoFailures(w: World, steps: seq<Action>)
    requires Start(w) && Schedule(w, steps)
    ensures Run(w, steps).Ok? || Run(w, steps).BadResume? || Run(w, steps).FreedTimer?
  {
    StartIsGood(w);
    BaseRun(w, steps);
  }

  // ----- callbacks that delete their own event -----------------------------------------

  /** No callback of an event that is to be put off deletes it. */
  ghost predicate SparesItself(w: World, steps: seq<Action>)
    requires Schedule(w, steps)
    decreases |steps|
  {
    steps == [] ||
    (!CancelsItself(w, steps[0]) && (Step(w, steps[0]).Ok? ==> SparesItself(Step(w, steps[0]).w, steps[1..])))
  }

  /** The loop stands still, no timer goes or changes, and one comes at most. */
  ghost predicate TimersStay(w: World, v: World) {
    && v.loop == w.loop && w.nextTimer <= v.nextTimer
    && w.timers.Keys <= v.timers.Keys <= w.timers.Keys + {w.nextTimer}
    && (forall id {:trigger v.timers[id]} :: id in w.timers && id != w.nextTimer ==> v.timers[id] == w.timers[id])
  }

  lemma UseKeepsTimers(w: World, ch: int, e: C.Event, timeout: int)
    requires UseChannel(w, ch, e, timeout).Ok?
    ensures TimersStay(w, UseChannel(w, ch, e, timeout).w) && UseChannel(w, ch, e, timeout).w.now == w.now
  {
    assert w.timers.Keys <= ArmTimer(w, Wakes(Self(w)), timeout).timers.Keys;
  }

  lemma ChannelsKeepTimers(w: World, a: Action)
    requires Enabled(w, a) && Step(w, a).Ok? && (a.Push? || a.Pop? || a.Land?)
    ensures TimersStay(w, Step(w, a).w) && Step(w, a).w.now == w.now
  {
    match a {
      case Push(ch, d, timeout) => UseKeepsTimers(w, ch, C.CallPush(Self(w), d), timeout);
      case Pop(ch, timeout) => UseKeepsTimers(w, ch, C.CallPop(Self(w)), timeout);
      case Land => UseKeepsTimers(w.(block := w.block[Self(w) := Ready]), w.block[Self(w)].ch, C.Land, 0);
    }
  }

  /** Within a callback the loop stands still, and timers go by deletion only. */
  lemma CallbacksKeepTimers(w: World, a: Action)
    requires Enabled(w, a) && Step(w, a).Ok? && w.loop.Firing? && !a.CancelTimer? && !a.FireDone?
    ensures TimersStay(w, Step(w, a).w) && (a.Tick? || Step(w, a).w.now == w.now)
  {
    if a.Push? || a.Pop? || a.Land? { ChannelsKeepTimers(w, a); }
  }

  lemma BeginsCallback(w: World, a: Action)
    requires Enabled(w, a) && Step(w, a).Ok? && !w.loop.Firing?
    ensures !Freed(Step(w, a).w)
  {
    if a.Push? || a.Pop? || a.Land? { ChannelsKeepTimers(w, a); }
  }

  lemma FreedBySelf(w: World, a: Action)
    requires Enabled(w, a) && !Freed(w) && !CancelsItself(w, a) && Step(w, a).Ok?
    ensures !Freed(Step(w, a).w)
  {
    if !w.loop.Firing? {
      BeginsCallback(w, a);
    } else if !a.CancelTimer? && !a.FireDone? {
      CallbacksKeepTimers(w, a);
    }
  }

  /** The second failure comes from nothing but a callback that deletes its own event. */
  lemma {:induction false} FreedOnlyBySelf(w: World, steps: seq<Action>)
    requires Base(w) && !Freed(w) && Schedule(w, steps) && SparesItself(w, steps)
    ensures !Run(w, steps).FreedTimer?
    decreases |steps|
  {
    if steps != [] {
      Bases.BaseStep(w, steps[0]);
      if Step(w, steps[0]).Ok? {
        FreedBySelf(w, steps[0]);
        FreedOnlyBySelf(Step(w, steps[0]).w, steps[1..]);
      }
    }
  }

  lemma {:induction false} CarefulSparesItself(w: World, steps: seq<Action>)
    requires CarefulSchedule(w, steps)
    ensures SparesItself(w, steps)
    decreases |steps|
  {
    if steps != [] && Step(w, steps[0]).Ok? {
      CarefulSparesItself(Step(w, steps[0]).w, steps[1..]);
    }
  }

  /** So careful code fails by a bad resume or not at all. */
  lemma CarefulNeverFrees(w: World, steps: seq<Action>)
    requires Start(w) && CarefulSchedule(w, steps)
    ensures Run(w, steps).Ok? || Run(w, steps).BadResume?
  {
    OnlyTwoFailures(w, steps);
    CarefulSparesItself(w, steps);
    FreedOnlyBySelf(w, steps);
  }

  /** And once a callback has done it, nothing that any code does can repair it: no run comes
      back to the pass. */
  lemma {:induction false} FreedForGood(w: World, steps: seq<Action>)
    requires Freed(w) && w.loop.id < w.nextTimer && Schedule(w, steps) && Run(w, steps).Ok?
    ensures Freed(Run(w, steps).w) && Run(w, steps).w.loop == w.loop
    decreases |steps|
  {
    if steps != [] {
      FreedStep(w, steps[0]);
      FreedForGood(Step(w, steps[0]).w, steps[1..]);
    }
  }

  lemma FreedStep(w: World, a: Action)
    requires Enabled(w, a) && Freed(w) && w.loop.id < w.nextTimer && Step(w, a).Ok?
    ensures var v := Step(w, a).w; Freed(v) && v.loop == w.loop && w.nextTimer <= v.nextTimer
  {
    if !a.CancelTimer? && !a.FireDone? {
      CallbacksKeepTimers(w, a);
    }
  }

  lemma RunCons(w: World, a: Action, v: World, steps: seq<Action>)
    requires Enabled(w, a) && Step(w, a) == Ok(v) && Schedule(v, steps)
    ensures Schedule(w, [a] + steps) && Run(w, [a] + steps) == Run(v, steps)
  {
    var all := [a] + steps;
    assert all[0] == a && all[1..] == steps;
  }

  /** Inside the callback of a periodic timer, in main. */
  ghost predicate InTick(w: World, id: int) {
    InMain(w) && w.loop.Firing? && w.loop.id == id && id in w.timers && Periodic(w.loop.proc)
  }

  lemma TickDeletesItself(w: World, id: int)
    requires InTick(w, id)
    ensures Schedule(w, [CancelTimer(id), FireDone]) && Run(w, [CancelTimer(id), FireDone]) == FreedTimer(id)
  {
    var v := Step(w, CancelTimer(id)).w;
    assert Schedule(v, [FireDone]) && Run(v, [FireDone]) == FreedTimer(id);
    RunCons(w, CancelTimer(id), v, [FireDone]);
    assert [CancelTimer(id)] + [FireDone] == [CancelTimer(id), FireDone];
  }

  lemma TickFires(w: World, id: int, period: int) returns (steps: seq<Action>)
    requires InMain(w) && w.loop == Waiting && w.poll.Open? && w.timers == map[id := Timer(Calls(period), w.now)]
    requires id < w.nextTimer && period != NOMORE
    ensures Schedule(w, steps) && Run(w, steps) == FreedTimer(id)
  {
    var v1 := Step(w, Reported([])).w;
    assert v1.loop == Dispatching([]);
    var v2 := Step(v1, DispatchDone).w;
    var v3 := Step(v2, Fire(id)).w;
    TickDeletesItself(v3, id);
    RunCons(v2, Fire(id), v3, [CancelTimer(id), FireDone]);
    RunCons(v1, DispatchDone, v2, [Fire(id)] + [CancelTimer(id), FireDone]);
    RunCons(w, Reported([]), v1, [DispatchDone] + ([Fire(id)] + [CancelTimer(id), FireDone]));
    steps := [Reported([])] + ([DispatchDone] + ([Fire(id)] + [CancelTimer(id), FireDone]));
  }

  /** For instance: main makes a tick of 5 ms whose callback deletes it, and enters the loop. */
  lemma DeletingTickBreaks(w: World) returns (steps: seq<Action>)
    requires Start(w)
    ensures Schedule(w, steps) && Run(w, steps) == FreedTimer(0)
  {
    var v1 := Step(w, StartTimer(5, 5)).w;
    var v2 := Step(v1, EnterLoop).w;
    var v3 := Step(v2, Tick(5)).w;
    var later := TickFires(v3, 0, 5);
    RunCons(v2, Tick(5), v3, later);
    RunCons(v1, EnterLoop, v2, [Tick(5)] + later);
    RunCons(w, StartTimer(5, 5), v1, [EnterLoop] + ([Tick(5)] + later));
    steps := [StartTimer(5, 5)] + ([EnterLoop] + ([Tick(5)] + later));
  }

  // ----- the switcher underneath -------------------------------------------------------

  /** How a step uses the switcher: not at all, or by one legal operation. */
  ghost predicate Switches(s: S.State, t: S.State) {
    s == t || exists op :: S.Legal(s, op) && t == S.Step(s, op)
  }

  lemma ResumeSwitches(w: World, c: int)
    requires Resume(w, c).Ok?
    ensures Switches(w.sw, Resume(w, c).w.sw)
  {
    assert S.Legal(w.sw, S.Resume(c)) && Resume(w, c).w.sw == S.Step(w.sw, S.Resume(c));
  }

  lemma SuspendSwitches(w: World, b: Block)
    requires Suspend(w, b).Ok?
    ensures Switches(w.sw, Suspend(w, b).w.sw)
  {
    assert S.Legal(w.sw, S.Yield) && Suspend(w, b).w.sw == S.Step(w.sw, S.Yield);
  }

  lemma AfterChannelSwitches(w: World, ch: int, s: C.Sys, c: int, timeout: int)
    requires AfterChannel(w, ch, s, c, timeout).Ok?
    ensures Switches(w.sw, AfterChannel(w, ch, s, c, timeout).w.sw)
  {
    var v := w.(chans := w.chans[ch := s]);
    if c in s.waiting {
      if timeout > 0 { SuspendSwitches(ArmTimer(v, Wakes(c), timeout), InChannel(ch, C.Some(w.nextTimer))); }
      else { SuspendSwitches(v, InChannel(ch, C.None)); }
    } else if s.landing.Some? {
      ResumeSwitches(w.(chans := w.chans[ch := s.(landing := C.None)]), s.landing.value);
    }
  }

  lemma StepSwitches(w: World, a: Action)
    requires Enabled(w, a) && Step(w, a).Ok?
    ensures Switches(w.sw, Step(w, a).w.sw)
  {
    match a {
      case Compute(regs) => assert S.Legal(w.sw, S.Compute(regs));
      case Create(top, frame) => assert S.Legal(w.sw, S.Op.Create(top, frame));
      case End => assert S.Legal(w.sw, S.Op.End);
      case Sleep(delay) => SuspendSwitches(ArmTimer(w, Wakes(Self(w)), delay), InSleep(w.nextTimer));
      case UserYield => SuspendSwitches(w.(yielded := w.yielded + {Self(w)}), InUserYield);
      case UserResume(c) => if c in w.yielded { ResumeSwitches(w.(yielded := w.yielded - {c}), c); }
      case WaitEvent(fd) => SuspendSwitches(w.(poll := Registered(w.poll, fd, Self(w))), InPoll(fd));
      case Push(ch, d, timeout) =>
        AfterChannelSwitches(w, ch, C.Next(w.chans[ch], C.CallPush(Self(w), d)), Self(w), timeout);
      case Pop(ch, timeout) =>
        AfterChannelSwitches(w, ch, C.Next(w.chans[ch], C.CallPop(Self(w))), Self(w), timeout);
      case Land =>
        var v := w.(block := w.block[Self(w) := Ready]);
        var ch := w.block[Self(w)].ch;
        AfterChannelSwitches(v, ch, C.Next(v.chans[ch], C.Land), Self(v), 0);
      case DispatchNext => ResumeSwitches(w.(loop := Dispatching(w.loop.rest[1..])), w.loop.rest[0]);
      case Fire(id) =>
        var proc := w.timers[id].proc;
        if proc.Wakes? { ResumeSwitches(w.(loop := Firing(w.loop.maxId, id, proc)), proc.cid); }
      case _ =>
    }
  }

  /** A run is a legal run of the switcher underneath. */
  lemma {:induction false} UsesSwitcherLegally(w: World, steps: seq<Action>) returns (ops: seq<S.Op>)
    requires Schedule(w, steps) && Run(w, steps).Ok?
    ensures S.LegalRun(w.sw, ops) && S.Run(w.sw, ops) == Run(w, steps).w.sw
    decreases |steps|
  {
    ops := [];
    if steps != [] {
      var v := Step(w, steps[0]).w;
      StepSwitches(w, steps[0]);
      ops := UsesSwitcherLegally(v, steps[1..]);
      if w.sw != v.sw {
        var op :| S.Legal(w.sw, op) && v.sw == S.Step(w.sw, op);
        assert ([op] + ops)[0] == op && ([op] + ops)[1..] == ops;
        ops := [op] + ops;
      }
    }
  }

  /** So in every run of any code, up to the first failure if there is one, each coroutine
      has a page of its own, given back exactly when the coroutine has ended, and no cid is
      given twice. */
  lemma PagesInRuns(w: World, steps: seq<Action>)
    requires Start(w) && Schedule(w, steps) && Run(w, steps).Ok?
    ensures S.Wf(Run(w, steps).w.sw)
  {
    var ops := UsesSwitcherLegally(w, steps);
    S.WfRun(w.sw, ops);
  }

  // ----- careful runs ------------------------------------------------------------------

  lemma {:induction false} SoundRun(w: World, steps: seq<Action>)
    requires Cares.Sound(w) && CarefulSchedule(w, steps) && Run(w, steps).Ok?
    ensures Cares.Sound(Run(w, steps).w)
    decreases |steps|
  {
    if steps != [] {
      Cares.SoundStep(w, steps[0]);
      SoundRun(Step(w, steps[0]).w, steps[1..]);
    }
  }

  /** What keeps the loop going as long as `c` is suspended in one of these calls. */
  lemma HeldBy(w: World, c: int)
    requires Cares.Sound(w) && c in w.sw.parked
    ensures c in w.block && w.block[c] != Ready
    ensures w.block[c].InSleep? || (w.block[c].InChannel? && w.block[c].alarm.Some?) ==> w.timers != map[]
    ensures w.block[c].InPoll? ==> w.poll.Open? && w.poll.eventNum > 0
  {
    var b := w.block[c];
    assert At(w.block, c, b);
    if b.InChannel? && b.alarm.Some? {
      assert b == InChannel(b.ch, C.Some(b.alarm.value));
      assert Armed(w, c, b.alarm.value);
    }
  }

  /** In every run of careful code, timed channel waits included: when event_wait returns,
      whoever is still suspended yielded by hand or waits in a channel without a timeout;
      nobody is left in sleep, in wait_event, or in a channel with a timeout. */
  lemma NothingLostAtExit(w: World, steps: seq<Action>)
    requires Start(w) && CarefulSchedule(w, steps) && Run(w, steps).Ok?
    requires var v := Run(w, steps).w; Enabled(v, PassDone) && Step(v, PassDone).w.loop == Outside
    ensures var v := Run(w, steps).w;
            forall c :: c in v.sw.parked ==>
              c in v.block && (v.block[c].InUserYield? || (v.block[c].InChannel? && v.block[c].alarm == C.None))
  {
    StartIsGood(w);
    SoundRun(w, steps);
    var v := Run(w, steps).w;
    forall c | c in v.sw.parked
      ensures c in v.block && (v.block[c].InUserYield? || (v.block[c].InChannel? && v.block[c].alarm == C.None)) {
      HeldBy(v, c);
    }
  }

  // ----- disciplined runs --------------------------------------------------------------

  lemma {:induction false} InvRun(w: World, steps: seq<Action>)
    requires Inv(w) && DisciplinedSchedule(w, steps)
    ensures Run(w, steps).Ok? && Inv(Run(w, steps).w)
    decreases |steps|
  {
    if steps != [] {
      Steps.StepKeepsInv(w, steps[0]);
      InvRun(Step(w, steps[0]).w, steps[1..]);
    }
  }

  /** A world that a disciplined run can lead to. */
  ghost predicate Reachable(w: World) {
    exists v, steps :: Start(v) && DisciplinedSchedule(v, steps) && Run(v, steps) == Ok(w)
  }

  lemma ReachableIsGood(w: World)
    requires Reachable(w)
    ensures Inv(w)
  {
    var v, steps :| Start(v) && DisciplinedSchedule(v, steps) && Run(v, steps) == Ok(w);
    StartIsGood(v);
    InvRun(v, steps);
  }

  lemma {:induction false} OneMore(v: World, steps: seq<Action>, w: World, a: Action)
    requires DisciplinedSchedule(v, steps) && Run(v, steps) == Ok(w)
    requires Enabled(w, a) && Disciplined(w, a)
    ensures DisciplinedSchedule(v, steps + [a]) && Run(v, steps + [a]) == Step(w, a)
    decreases |steps|
  {
    var all := steps + [a];
    if steps == [] {
      assert all[0] == a && all[1..] == [];
    } else {
      assert all[0] == steps[0] && all[1..] == steps[1..] + [a];
      OneMore(Step(v, steps[0]).w, steps[1..], w, a);
    }
  }

  lemma ReachedOn(w: World, a: Action)
    requires Reachable(w) && Enabled(w, a) && Disciplined(w, a) && Step(w, a).Ok?
    ensures Reachable(Step(w, a).w)
  {
    var v, steps :| Start(v) && DisciplinedSchedule(v, steps) && Run(v, steps) == Ok(w);
    OneMore(v, steps, w, a);
  }

  lemma ReachableOn(w: World, a: Action)
    requires Reachable(w) && Enabled(w, a) && Disciplined(w, a)
    ensures Step(w, a).Ok? && Reachable(Step(w, a).w)
  {
    ReachableIsGood(w);
    Steps.StepKeepsInv(w, a);
    ReachedOn(w, a);
  }

  /** No disciplined run ever resumes a coroutine that runs, waits for a callee, or has
      ended. */
  lemma NoFault(v: World, steps: seq<Action>)
    requires Start(v) && DisciplinedSchedule(v, steps)
    ensures Run(v, steps).Ok?
  {
    StartIsGood(v);
    InvRun(v, steps);
  }

  // ----- one waker each ----------------------------------------------------------------

  /** The places from which a coroutine can be resumed. */
  datatype Waker =
    | TimerEntry(id: int)
    | Registration(fd: int)
    | ProducerSlot(ch: int, pos: nat)
    | ConsumerSlot(ch: int, pos: nat)
    | YieldEntry(cid: int)

  /** Entry `k` exists and resuming it resumes `c`; the timer that is firing has done so. */
  predicate Names(w: World, k: Waker, c: int) {
    match k
    case TimerEntry(id) => id in w.timers && w.timers[id].proc == Wakes(c) && !IsFiring(w, id)
    case Registration(fd) => w.poll.Open? && fd in w.poll.registered && w.poll.registered[fd] == c
    case ProducerSlot(ch, pos) =>
      ch in w.chans && pos < |w.chans[ch].chan.producers| && w.chans[ch].chan.producers[pos] == c
    case ConsumerSlot(ch, pos) =>
      ch in w.chans && pos < |w.chans[ch].chan.consumers| && w.chans[ch].chan.consumers[pos] == c
    case YieldEntry(cid) => cid in w.yielded && cid == c
  }

  /** The only entry that can name a coroutine in this standing, but for channels, where it
      is some slot. */
  ghost predicate Matches(k: Waker, b: Block, c: int) {
    match k
    case TimerEntry(id) => b == InSleep(id)
    case Registration(fd) => b == InPoll(fd)
    case ProducerSlot(ch, _) => b.InChannel? && b.ch == ch
    case ConsumerSlot(ch, _) => b.InChannel? && b.ch == ch
    case YieldEntry(cid) => b == InUserYield && cid == c
  }

  /** In a queue nobody stands twice, nobody who has just been woken, and only one of the two
      queues is in use. */
  lemma SlotsAreDistinct(s: C.Sys)
    requires C.Inv(s)
    ensures s.chan.producers == [] || s.chan.consumers == []
    ensures forall i {:trigger s.chan.producers[i]} :: 0 <= i < |s.chan.producers| ==>
              s.chan.producers[i] in s.waiting && s.landing != C.Some(s.chan.producers[i])
    ensures forall i {:trigger s.chan.consumers[i]} :: 0 <= i < |s.chan.consumers| ==>
              s.chan.consumers[i] in s.waiting && s.landing != C.Some(s.chan.consumers[i])
    ensures forall i, j :: 0 <= i < j < |s.chan.producers| ==> s.chan.producers[i] != s.chan.producers[j]
    ensures forall i, j :: 0 <= i < j < |s.chan.consumers| ==> s.chan.consumers[i] != s.chan.consumers[j]
  {
    var ps, cs := C.Producers(s), C.Consumers(s);
    var p, c := |ps| - |s.chan.producers|, |cs| - |s.chan.consumers|;
    assert forall i {:trigger s.chan.producers[i]} :: 0 <= i < |s.chan.producers| ==> ps[i + p] == s.chan.producers[i];
    assert forall i {:trigger s.chan.consumers[i]} :: 0 <= i < |s.chan.consumers| ==> cs[i + c] == s.chan.consumers[i];
    assert p == 1 ==> ps[0] == s.landing.value;
    assert c == 1 ==> cs[0] == s.landing.value;
  }

  lemma QueuedAreSuspended(w: World, k: Waker, c: int)
    requires Inv(w) && Names(w, k, c) && (k.ProducerSlot? || k.ConsumerSlot?)
    ensures WaitsIn(w.block, c, k.ch) && c in w.sw.parked
  {
    assert C.Inv(w.chans[k.ch]);
    SlotsAreDistinct(w.chans[k.ch]);
    assert c in w.chans[k.ch].waiting;
    assert WaitsIn(w.block, c, k.ch);
  }

  /** Every entry names a live suspended coroutine, in the call that made the entry. */
  lemma EntriesNameSuspended(w: World, k: Waker, c: int)
    requires Inv(w) && Names(w, k, c)
    ensures c in w.sw.parked && c in w.block && Matches(k, w.block[c], c)
  {
    match k {
      case TimerEntry(id) => assert At(w.block, c, InSleep(id));
      case Registration(fd) => assert At(w.block, c, InPoll(fd));
      case YieldEntry(_) => assert At(w.block, c, InUserYield);
      case _ => QueuedAreSuspended(w, k, c);
    }
  }

  lemma EntriesAreUnique(w: World, k: Waker, l: Waker, c: int)
    requires Inv(w) && Names(w, k, c) && Names(w, l, c)
    ensures k == l
  {
    EntriesNameSuspended(w, k, c);
    EntriesNameSuspended(w, l, c);
    if k.ProducerSlot? || k.ConsumerSlot? {
      assert C.Inv(w.chans[k.ch]);
      SlotsAreDistinct(w.chans[k.ch]);
    }
  }

  lemma SuspendedHaveEntries(w: World, c: int) returns (k: Waker)
    requires Inv(w) && c in w.sw.parked
    ensures Names(w, k, c)
  {
    var b := w.block[c];
    assert At(w.block, c, b);
    match b {
      case InSleep(id) => k := TimerEntry(id);
      case InPoll(fd) => k := Registration(fd);
      case InUserYield => k := YieldEntry(c);
      case InChannel(ch, _) =>
        assert WaitsIn(w.block, c, ch);
        var s := w.chans[ch];
        assert C.Inv(s) && c in s.waiting;
        assert C.Queued(c, C.Producers(s), C.Consumers(s));
        assert s.landing != C.Some(c);
        if c in s.chan.producers {
          var i :| 0 <= i < |s.chan.producers| && s.chan.producers[i] == c;
          k := ProducerSlot(ch, i);
        } else {
          var i :| 0 <= i < |s.chan.consumers| && s.chan.consumers[i] == c;
          k := ConsumerSlot(ch, i);
        }
    }
  }

  /** At every moment of every disciplined run a coroutine is suspended exactly when an entry
      names it, and then exactly one does. */
  lemma SingleWaker(w: World, c: int)
    requires Reachable(w)
    ensures c in w.sw.parked <==> exists k :: Names(w, k, c)
    ensures forall k, l :: Names(w, k, c) && Names(w, l, c) ==> k == l
    ensures forall k :: Names(w, k, c) ==> S.Live(w.sw, c) && c !in w.sw.active
  {
    ReachableIsGood(w);
    if c in w.sw.parked {
      var k := SuspendedHaveEntries(w, c);
    }
    forall k | Names(w, k, c) ensures c in w.sw.parked {
      EntriesNameSuspended(w, k, c);
    }
    forall k, l | Names(w, k, c) && Names(w, l, c) ensures k == l {
      EntriesAreUnique(w, k, l, c);
    }
  }

  // ----- the counter -------------------------------------------------------------------

  /** Disciplined or not: nothing in the program lowers event_num while the poll lives, so once
      wait_event has been called event_wait does not return. */
  ghost predicate Trapped(w: World, n: int) {
    w.loop != Outside && w.poll.Open? && w.poll.eventNum >= n
  }

  lemma AfterChannelKeepsTrapped(w: World, ch: int, s: C.Sys, c: int, timeout: int, n: int)
    requires Trapped(w, n) && AfterChannel(w, ch, s, c, timeout).Ok?
    ensures Trapped(AfterChannel(w, ch, s, c, timeout).w, n)
  {
  }

  lemma StepKeepsTrapped(w: World, a: Action, n: int)
    requires Enabled(w, a) && Trapped(w, n) && n > 0 && Step(w, a).Ok?
    ensures Trapped(Step(w, a).w, n)
  {
    match a {
      case Push(ch, d, timeout) =>
        AfterChannelKeepsTrapped(w, ch, C.Next(w.chans[ch], C.CallPush(Self(w), d)), Self(w), timeout, n);
      case Pop(ch, timeout) =>
        AfterChannelKeepsTrapped(w, ch, C.Next(w.chans[ch], C.CallPop(Self(w))), Self(w), timeout, n);
      case Land =>
        var v := w.(block := w.block[Self(w) := Ready]);
        var ch := w.block[Self(w)].ch;
        AfterChannelKeepsTrapped(v, ch, C.Next(v.chans[ch], C.Land), Self(v), 0, n);
      case _ =>
    }
  }

  lemma {:induction false} OneSocketWaitIsForever(w: World, steps: seq<Action>)
    requires w.loop != Outside && w.poll.Open? && w.poll.eventNum > 0
    requires Schedule(w, steps) && Run(w, steps).Ok?
    ensures var v := Run(w, steps).w;
            v.loop != Outside && v.poll.Open? && v.poll.eventNum >= w.poll.eventNum
    decreases |steps|
  {
    if steps != [] {
      StepKeepsTrapped(w, steps[0], w.poll.eventNum);
      OneSocketWaitIsForever(Step(w, steps[0]).w, steps[1..]);
    }
  }
}

/** Who runs after each step, and with which registers: what every call, timer, report and
    queue entry is for. */
module RuntimeControl {
  import S = SwitchSpec
  import C = ChannelSpec
  import opened Runtime
  import opened RuntimeBase
  import opened RuntimeSteps
  import opened RuntimeRuns

  /** A world that a run of any code can lead to. */
  ghost predicate Comes(w: World) {
    exists v, steps :: Start(v) && Schedule(v, steps) && Run(v, steps) == Ok(w)
  }

  lemma ComesIsGood(w: World)
    requires Comes(w)
    ensures Base(w) && S.Wf(w.sw)
  {
    var v, steps :| Start(v) && Schedule(v, steps) && Run(v, steps) == Ok(w);
    StartIsGood(v);
    BaseRun(v, steps);
    PagesInRuns(v, steps);
  }

  lemma ReachableComes(w: World)
    requires Reachable(w)
    ensures Comes(w)
  {
  }

  /** `c` goes on where it was suspended; if that is in a channel, it is the next to use it. */
  ghost predicate GoesOn(w: World, v: World, c: int) {
    && S.TakesOver(w.sw, v.sw, c) && c in w.block
    && (if w.block[c].InChannel?
        then v.block == w.block && w.block[c].ch in v.chans && v.chans[w.block[c].ch].landing == C.Some(c)
        else v.block == w.block[c := Ready])
  }

  /** The running coroutine is suspended, inside this call. */
  ghost predicate Stops(w: World, v: World, b: Block) {
    !InMain(w) && S.GivesWay(w.sw, v.sw, S.Top(w.sw)) && v.block == w.block[S.Top(w.sw) := b]
  }

  ghost predicate Stays(w: World, v: World) {
    v.sw == w.sw && v.block == w.block
  }

  /** What a call of push or pop does to control, given whether it must wait and who stands at
      the head of the other queue. */
  ghost predicate CallDoes(w: World, v: World, ch: int, waits: bool, others: seq<int>, timeout: int) {
    if waits then Stops(w, v, InChannel(ch, if timeout > 0 then C.Some(w.nextTimer) else C.None))
    else if others != [] then GoesOn(w, v, others[0])
    else Stays(w, v)
  }

  lemma ResumeDoes(w: World, c: int)
    requires Resume(w, c).Ok? && S.Wf(w.sw)
    ensures GoesOn(w, Resume(w, c).w, c)
  {
    S.OpDoes(w.sw, S.Resume(c));
  }

  lemma SuspendDoes(w: World, b: Block)
    requires Suspend(w, b).Ok? && S.Wf(w.sw)
    ensures Stops(w, Suspend(w, b).w, b)
  {
    S.OpDoes(w.sw, S.Yield);
  }

  lemma AfterChannelDoes(w: World, ch: int, s: C.Sys, c: int, timeout: int)
    requires AfterChannel(w, ch, s, c, timeout).Ok? && S.Wf(w.sw) && (c in s.waiting ==> s.landing == C.None)
    ensures CallDoes(w, AfterChannel(w, ch, s, c, timeout).w, ch, c in s.waiting,
                     if s.landing.Some? then [s.landing.value] else [], timeout)
  {
    var u := w.(chans := w.chans[ch := s]);
    if c in s.waiting {
      if timeout > 0 { SuspendDoes(ArmTimer(u, Wakes(c), timeout), InChannel(ch, C.Some(w.nextTimer))); }
      else { SuspendDoes(u, InChannel(ch, C.None)); }
    } else if s.landing.Some? {
      ResumeDoes(w.(chans := w.chans[ch := s.(landing := C.None)]), s.landing.value);
    }
  }

  /** push: it waits exactly if the channel is full; otherwise the first consumer goes on. */
  lemma PushDoes(w: World, ch: int, d: C.Datum, timeout: int)
    requires Base(w) && S.Wf(w.sw) && Enabled(w, Push(ch, d, timeout)) && Step(w, Push(ch, d, timeout)).Ok?
    ensures var c := w.chans[ch].chan;
            CallDoes(w, Step(w, Push(ch, d, timeout)).w, ch, |c.data| == c.capacity, c.consumers, timeout)
  {
    var e := C.CallPush(Self(w), d);
    CallerIsNew(w, ch);
    ChannelEffect(w.chans[ch], e);
    var t := C.Next(w.chans[ch], e);
    assert Self(w) in t.waiting <==> Self(w) in t.waiting.Keys;
    AfterChannelDoes(w, ch, t, Self(w), timeout);
  }

  /** pop: it waits exactly if the channel is empty; otherwise the first producer goes on. */
  lemma PopDoes(w: World, ch: int, timeout: int)
    requires Base(w) && S.Wf(w.sw) && Enabled(w, Pop(ch, timeout)) && Step(w, Pop(ch, timeout)).Ok?
    ensures var c := w.chans[ch].chan;
            CallDoes(w, Step(w, Pop(ch, timeout)).w, ch, c.data == [], c.producers, timeout)
  {
    var e := C.CallPop(Self(w));
    CallerIsNew(w, ch);
    ChannelEffect(w.chans[ch], e);
    var t := C.Next(w.chans[ch], e);
    assert Self(w) in t.waiting <==> Self(w) in t.waiting.Keys;
    AfterChannelDoes(w, ch, t, Self(w), timeout);
  }

  /** Whom a call that goes on behind its wait finds at the head of the other queue: nobody if
      it gives up. */
  function FoundBy(call: C.Pending, c: C.Chan): seq<int> {
    if call.Pushing? then (if |c.data| != c.capacity then c.consumers else [])
    else if c.data != [] then c.producers else []
  }

  lemma LandDoes(w: World)
    requires Base(w) && S.Wf(w.sw) && Enabled(w, Land) && Step(w, Land).Ok?
    ensures var me, ch := Self(w), w.block[Self(w)].ch;
            && ch in w.chans && me in w.chans[ch].waiting
            && CallDoes(w.(block := w.block[me := Ready]), Step(w, Land).w, ch, false,
                        FoundBy(w.chans[ch].waiting[me], w.chans[ch].chan), 0)
  {
    var me, ch := Self(w), w.block[Self(w)].ch;
    assert WaitsIn(w.block, me, ch);
    var v := w.(block := w.block[me := Ready]);
    ChannelEffect(w.chans[ch], C.Land);
    AfterChannelDoes(v, ch, C.Next(w.chans[ch], C.Land), me, 0);
  }

  lemma CallerIsNew(w: World, ch: int)
    requires Base(w) && AtUserCode(w) && ch in w.chans
    ensures w.chans[ch].landing == C.None && Self(w) !in w.chans[ch].waiting
  {
    NoLanding(w, ch);
    assert Self(w) in w.chans[ch].waiting ==> WaitsIn(w.block, Self(w), ch);
    assert Self(w) in w.block ==> S.Live(w.sw, Self(w));
  }

  /** Calls that always suspend the caller, in the call named. */
  lemma SuspendingDoes(w: World, a: Action)
    requires Enabled(w, a) && Step(w, a).Ok? && S.Wf(w.sw) && (a.Sleep? || a.UserYield? || a.WaitEvent?)
    ensures Stops(w, Step(w, a).w,
                  if a.Sleep? then InSleep(w.nextTimer) else if a.UserYield? then InUserYield else InPoll(a.fd))
  {
    match a {
      case Sleep(delay) => SuspendDoes(ArmTimer(w, Wakes(Self(w)), delay), InSleep(w.nextTimer));
      case UserYield => SuspendDoes(w.(yielded := w.yielded + {Self(w)}), InUserYield);
      case WaitEvent(fd) => SuspendDoes(w.(poll := Registered(w.poll, fd, Self(w))), InPoll(fd));
    }
  }

  /** A resume by hand: whoever has yielded by hand goes on and is no longer in the table; for
      anyone else nothing happens. */
  lemma UserResumeDoes(w: World, c: int)
    requires S.Wf(w.sw) && Enabled(w, UserResume(c)) && Step(w, UserResume(c)).Ok?
    ensures var v := Step(w, UserResume(c)).w;
            if c in w.yielded then GoesOn(w, v, c) && v.yielded == w.yielded - {c} else v == w
  {
    if c in w.yielded { ResumeDoes(w.(yielded := w.yielded - {c}), c); }
  }

  /** A report is handled: the coroutine that waited goes on, and its descriptor is forgotten. */
  lemma DispatchDoes(w: World)
    requires S.Wf(w.sw) && Enabled(w, DispatchNext) && Step(w, DispatchNext).Ok?
    ensures var v, c := Step(w, DispatchNext).w, w.loop.rest[0];
            && GoesOn(w, v, c) && v.loop == Dispatching(w.loop.rest[1..])
            && (w.block[c].InPoll? && v.poll.Open? ==> w.block[c].fd !in v.poll.registered)
  {
    ResumeDoes(w.(loop := Dispatching(w.loop.rest[1..])), w.loop.rest[0]);
  }

  /** A timer fires: the coroutine that it is to wake goes on, or PHP code begins in main. */
  lemma FireDoes(w: World, id: int)
    requires S.Wf(w.sw) && Enabled(w, Fire(id)) && Step(w, Fire(id)).Ok?
    ensures var v, proc := Step(w, Fire(id)).w, w.timers[id].proc;
            && IsFiring(v, id) && (if proc.Wakes? then GoesOn(w, v, proc.cid) else Stays(w, v) && AtUserCode(v))
  {
    var v := w.(loop := Firing(w.loop.maxId, id, w.timers[id].proc));
    if w.timers[id].proc.Wakes? { ResumeDoes(v, w.timers[id].proc.cid); }
  }

  /** A new coroutine runs at once; one that ends gives way to whoever resumed or created it. */
  lemma LifeDoes(w: World, a: Action)
    requires S.Wf(w.sw) && Enabled(w, a) && Step(w, a).Ok? && (a.Create? || a.End?)
    ensures var v, c := Step(w, a).w, w.sw.lastCid + 1;
            if a.Create? then S.Begins(w.sw, v.sw, a.top, a.frame) && v.block == w.block[c := Ready]
            else S.Leaves(w.sw, v.sw, Self(w)) && v.block == w.block - {Self(w)}
  {
    if a.Create? { S.OpDoes(w.sw, S.Op.Create(a.top, a.frame)); } else { S.OpDoes(w.sw, S.Op.End); }
  }

  /** Everything else leaves control where it is; PHP code that computes moves its registers. */
  lemma OtherDoes(w: World, a: Action)
    requires Enabled(w, a) && Step(w, a).Ok?
    requires a.Compute? || a.NewChannel? || a.StartTimer? || a.CancelTimer? || a.Tick? || a.EnterLoop? || a.Reported?
             || a.DispatchDone? || a.FireDone? || a.PassDone?
    ensures var v := Step(w, a).w;
            && v.sw == (if a.Compute? then w.sw.(regs := a.regs) else w.sw)
            && v.block == w.block
  {
  }

  /** In every run of any code, what each step does to control. */
  lemma ControlIs(w: World, a: Action)
    requires Comes(w) && Enabled(w, a) && Step(w, a).Ok?
    ensures var v := Step(w, a).w;
            match a
            case Compute(regs) => v.sw == w.sw.(regs := regs) && v.block == w.block
            case Create(top, frame) => S.Begins(w.sw, v.sw, top, frame) && v.block == w.block[w.sw.lastCid + 1 := Ready]
            case End => S.Leaves(w.sw, v.sw, Self(w)) && v.block == w.block - {Self(w)}
            case Sleep(_) => Stops(w, v, InSleep(w.nextTimer))
            case UserYield => Stops(w, v, InUserYield)
            case WaitEvent(fd) => Stops(w, v, InPoll(fd))
            case UserResume(c) => if c in w.yielded then GoesOn(w, v, c) && v.yielded == w.yielded - {c} else v == w
            case Push(ch, _, timeout) =>
              var c := w.chans[ch].chan; CallDoes(w, v, ch, |c.data| == c.capacity, c.consumers, timeout)
            case Pop(ch, timeout) =>
              var c := w.chans[ch].chan; CallDoes(w, v, ch, c.data == [], c.producers, timeout)
            case Land =>
              var me, ch := Self(w), w.block[Self(w)].ch;
              && ch in w.chans && me in w.chans[ch].waiting
              && CallDoes(w.(block := w.block[me := Ready]), v, ch, false,
                          FoundBy(w.chans[ch].waiting[me], w.chans[ch].chan), 0)
            case DispatchNext => GoesOn(w, v, w.loop.rest[0])
            case Fire(id) =>
              var proc := w.timers[id].proc; if proc.Wakes? then GoesOn(w, v, proc.cid) else Stays(w, v)
            case _ => Stays(w, v)
  {
    ComesIsGood(w);
    if a.Push? { PushDoes(w, a.ch, a.d, a.timeout); }
    else if a.Pop? { PopDoes(w, a.ch, a.timeout); }
    else if a.Land? { LandDoes(w); }
    else if a.Sleep? || a.UserYield? || a.WaitEvent? { SuspendingDoes(w, a); }
    else if a.UserResume? { UserResumeDoes(w, a.cid); }
    else if a.DispatchNext? { DispatchDoes(w); }
    else if a.Fire? { FireDoes(w, a.id); }
    else if a.Create? || a.End? { LifeDoes(w, a); }
    else { OtherDoes(w, a); }
  }

  // ----- what entries are for ----------------------------------------------------------

  /** The step that uses entry `k`. */
  ghost predicate Uses(w: World, a: Action, k: Waker, c: int) {
    match k
    case TimerEntry(id) => a == Fire(id)
    case Registration(_) => a.DispatchNext? && w.loop.Dispatching? && w.loop.rest != [] && w.loop.rest[0] == c
    case ProducerSlot(ch, pos) => pos == 0 && a.Pop? && a.ch == ch
    case ConsumerSlot(ch, pos) => pos == 0 && a.Push? && a.ch == ch
    case YieldEntry(cid) => a == UserResume(cid)
  }

  /** At every moment of every disciplined run, using an entry that names a coroutine makes
      that coroutine go on, with the registers with which it was suspended, on top of those
      that are active; and then no entry names it any more. */
  lemma EntriesWake(w: World, k: Waker, c: int, a: Action)
    requires Reachable(w) && Names(w, k, c) && Enabled(w, a) && Disciplined(w, a) && Uses(w, a, k, c)
    ensures Step(w, a).Ok? && GoesOn(w, Step(w, a).w, c) && Self(Step(w, a).w) == c
    ensures forall l :: !Names(Step(w, a).w, l, c)
  {
    ReachableOn(w, a);
    EntryGoesOn(w, k, c, a);
    NoEntries(Step(w, a).w, c);
  }

  lemma EntryGoesOn(w: World, k: Waker, c: int, a: Action)
    requires Reachable(w) && Names(w, k, c) && Enabled(w, a) && Uses(w, a, k, c) && Step(w, a).Ok?
    ensures GoesOn(w, Step(w, a).w, c)
  {
    ReachableIsGood(w);
    ReachableComes(w);
    EntriesNameSuspended(w, k, c);
    QueueHeads(w, k);
    ComesIsGood(w);
    if a.Push? { CallerIsNew(w, a.ch); PushDoes(w, a.ch, a.d, a.timeout); }
    else if a.Pop? { CallerIsNew(w, a.ch); PopDoes(w, a.ch, a.timeout); }
    else { ControlIs(w, a); }
  }

  lemma NoEntries(w: World, c: int)
    requires Reachable(w) && c !in w.sw.parked
    ensures forall l :: !Names(w, l, c)
  {
    forall l ensures !Names(w, l, c) {
      SingleWaker(w, c);
    }
  }

  /** Producers wait in front of a full channel only, consumers in front of an empty one, when
      nobody who has been woken is under way. */
  lemma QueueHeads(w: World, k: Waker)
    requires Inv(w)
    ensures (k.ProducerSlot? || k.ConsumerSlot?) && k.ch in w.chans && w.chans[k.ch].landing == C.None ==>
              var c := w.chans[k.ch].chan;
              (c.producers != [] ==> c.data != []) && (c.consumers != [] ==> |c.data| != c.capacity)
  {
    if (k.ProducerSlot? || k.ConsumerSlot?) && k.ch in w.chans {
      assert C.Inv(w.chans[k.ch]);
    }
  }

  /** In the loop, epoll_wait can report any descriptor that is waited for, and the one who
      waits is next to go on. */
  lemma ReportsReach(w: World, fd: int, c: int)
    requires Reachable(w) && InMain(w) && w.loop == Waiting && Names(w, Registration(fd), c)
    ensures Enabled(w, Reported([fd])) && Step(w, Reported([fd])).Ok?
    ensures var v := Step(w, Reported([fd])).w;
            Reachable(v) && Names(v, Registration(fd), c) && Enabled(v, DispatchNext)
            && Uses(v, DispatchNext, Registration(fd), c)
  {
    ReachableOn(w, Reported([fd]));
    assert Step(w, Reported([fd])).w.loop.rest == [c];
  }
}

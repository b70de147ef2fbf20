/** What every step of disciplined code keeps: exactly one entry for everyone who is suspended,
    so that every resume finds a suspended coroutine. */
module RuntimeSteps {
  import S = SwitchSpec
  import C = ChannelSpec
  import opened Runtime
  import opened RuntimeBase

  // ----- who is resumed ----------------------------------------------------------------

  predicate Peer(w: World, ch: int, t: C.Sys) {
    t.landing.Some? ==> WaitsIn(w.block, t.landing.value, ch)
  }

  /** A step that resumes finds the coroutine in the call that made the entry. */
  predicate Expected(w: World, a: Action)
    requires Enabled(w, a)
  {
    match a
    case UserResume(c) => c in w.yielded ==> At(w.block, c, InUserYield)
    case DispatchNext => w.loop.rest[0] in w.block && w.block[w.loop.rest[0]].InPoll?
    case Fire(id) => w.timers[id].proc.Wakes? ==> At(w.block, w.timers[id].proc.cid, InSleep(id))
    case Push(ch, d, _) =>
      C.Enabled(w.chans[ch], C.CallPush(Self(w), d)) && Peer(w, ch, C.Next(w.chans[ch], C.CallPush(Self(w), d)))
    case Pop(ch, _) =>
      C.Enabled(w.chans[ch], C.CallPop(Self(w))) && Peer(w, ch, C.Next(w.chans[ch], C.CallPop(Self(w))))
    case Land =>
      var ch := w.block[Self(w)].ch;
      && ch in w.chans && C.Enabled(w.chans[ch], C.Land) && w.chans[ch].landing == C.Some(Self(w))
      && C.Next(w.chans[ch], C.Land).landing == C.None
    case Create(_, _) => w.sw.lastCid + 1 !in w.block
    case FireDone => !Freed(w)
    case _ => true
  }

  lemma CallWakes(s: C.Sys, e: C.Event)
    requires C.Inv(s) && C.Enabled(s, e) && (e.CallPush? || e.CallPop?)
    ensures var t := C.Next(s, e); t.landing.Some? ==> t.landing.value in s.waiting
  {
    C.InvNext(s, e);
    ChannelEffect(s, e);
  }

  lemma LandWakesNobody(s: C.Sys)
    requires C.Inv(s) && C.Enabled(s, C.Land)
    ensures C.Next(s, C.Land).landing == C.None
  {
    if s.waiting[s.landing.value].Pushing? { C.InvLandPush(s); } else { C.InvLandPop(s); }
  }

  lemma ChannelExpected(w: World, a: Action)
    requires Base(w) && Orders(w) && Enabled(w, a) && (a.Push? || a.Pop? || a.Land?)
    ensures Expected(w, a)
  {
    if a.Land? {
      var ch := w.block[Self(w)].ch;
      assert WaitsIn(w.block, Self(w), ch);
      LandWakesNobody(w.chans[ch]);
    } else {
      var ch := a.ch;
      var s := w.chans[ch];
      NoLanding(w, ch);
      assert Self(w) in s.waiting ==> WaitsIn(w.block, Self(w), ch);
      assert Self(w) in w.block ==> S.Live(w.sw, Self(w));
      CallWakes(s, if a.Push? then C.CallPush(Self(w), a.d) else C.CallPop(Self(w)));
    }
  }

  lemma InvExpected(w: World, a: Action)
    requires Inv(w) && Enabled(w, a)
    ensures Expected(w, a)
  {
    if a.Push? || a.Pop? || a.Land? {
      ChannelExpected(w, a);
    } else if a.Create? {
      assert !S.Live(w.sw, w.sw.lastCid + 1);
    }
  }

  lemma ParkedAt(w: World, c: int)
    requires Stack(w) && Quiet(w) && c in w.block && w.block[c] != Ready
    ensures c in w.sw.parked
  {
  }

  lemma CallGoesOn(w: World, ch: int, e: C.Event, timeout: int)
    requires Base(w) && Quiet(w) && ch in w.chans && C.Enabled(w.chans[ch], e) && Peer(w, ch, C.Next(w.chans[ch], e))
    requires Sane(w, UseChannel(w, ch, e, timeout))
    ensures UseChannel(w, ch, e, timeout).Ok?
  {
    var t := C.Next(w.chans[ch], e);
    if t.landing.Some? { ParkedAt(w, t.landing.value); }
  }

  lemma LandGoesOn(w: World)
    requires Base(w) && Enabled(w, Land) && Expected(w, Land)
    ensures Step(w, Land).Ok?
  {
    LandSane(w);
  }

  lemma PeerParked(w: World, a: Action)
    requires Base(w) && Enabled(w, a) && Expected(w, a) && (a.Push? || a.Pop? || a.Land?)
    ensures Step(w, a).Ok?
  {
    if a.Land? {
      LandGoesOn(w);
    } else {
      BaseStep(w, a);
      CallGoesOn(w, a.ch, if a.Push? then C.CallPush(Self(w), a.d) else C.CallPop(Self(w)), a.timeout);
    }
  }

  lemma EntryParked(w: World, a: Action)
    requires Base(w) && Enabled(w, a) && Expected(w, a) && !(a.Push? || a.Pop? || a.Land?)
    ensures Step(w, a).Ok?
  {
    BaseStep(w, a);
    match a {
      case UserResume(c) => if c in w.yielded { ParkedAt(w, c); }
      case DispatchNext => ParkedAt(w, w.loop.rest[0]);
      case Fire(id) => if w.timers[id].proc.Wakes? { ParkedAt(w, w.timers[id].proc.cid); }
      case _ =>
    }
  }

  lemma ResumesParked(w: World, a: Action)
    requires Base(w) && Enabled(w, a) && Expected(w, a)
    ensures Step(w, a).Ok? && Base(Step(w, a).w)
  {
    BaseStep(w, a);
    if a.Push? || a.Pop? || a.Land? { PeerParked(w, a); } else { EntryParked(w, a); }
  }

  // ----- what a change of standing leaves alone ----------------------------------------

  ghost predicate SameSleeps(b: map<int, Block>, d: map<int, Block>) {
    forall c, id {:trigger At(b, c, InSleep(id))} {:trigger At(d, c, InSleep(id))} ::
      At(b, c, InSleep(id)) <==> At(d, c, InSleep(id))
  }

  ghost predicate SamePolls(b: map<int, Block>, d: map<int, Block>) {
    forall c, fd {:trigger At(b, c, InPoll(fd))} {:trigger At(d, c, InPoll(fd))} ::
      At(b, c, InPoll(fd)) <==> At(d, c, InPoll(fd))
  }

  ghost predicate SameYields(b: map<int, Block>, d: map<int, Block>) {
    forall c {:trigger At(b, c, InUserYield)} {:trigger At(d, c, InUserYield)} ::
      At(b, c, InUserYield) <==> At(d, c, InUserYield)
  }

  /** One coroutine moves from one standing to another. */
  lemma Moved(block: map<int, Block>, c: int, a: Block, b: Block)
    requires if c in block then block[c] == a else a == Ready
    ensures !a.InSleep? && !b.InSleep? ==> SameSleeps(block, block[c := b])
    ensures !a.InPoll? && !b.InPoll? ==> SamePolls(block, block[c := b])
    ensures !a.InUserYield? && !b.InUserYield? ==> SameYields(block, block[c := b])
  {
  }

  /** A step concerns one kind of entry at most. */
  ghost predicate Moves(w: World, a: Action, v: World) {
    && (a.Sleep? || a.Fire? || SameSleeps(w.block, v.block))
    && (a.WaitEvent? || a.DispatchNext? || SamePolls(w.block, v.block))
    && (a.UserYield? || a.UserResume? || SameYields(w.block, v.block))
  }

  lemma ChannelMoves(w: World, a: Action)
    requires Enabled(w, a) && Expected(w, a) && Step(w, a).Ok? && (a.Push? || a.Pop? || a.Land?)
    requires InMain(w) ==> 0 !in w.block
    ensures Moves(w, a, Step(w, a).w)
    ensures var v := Step(w, a).w;
            a.Land? || !TimedWait(w, a) ==>
              v.timers == w.timers && v.nextTimer == w.nextTimer && v.now == w.now
    ensures var v := Step(w, a).w; v.poll == w.poll && v.yielded == w.yielded && v.loop == w.loop
  {
    var v, c := Step(w, a).w, Self(w);
    if a.Land? {
      ChannelEffect(w.chans[w.block[c].ch], C.Land);
      Moved(w.block, c, w.block[c], Ready);
    } else {
      var e := if a.Push? then C.CallPush(c, a.d) else C.CallPop(c);
      ChannelEffect(w.chans[a.ch], e);
      if c in C.Next(w.chans[a.ch], e).waiting {
        assert c in C.Next(w.chans[a.ch], e).waiting.Keys;
        Moved(w.block, c, Ready, InChannel(a.ch, if a.timeout > 0 then C.Some(w.nextTimer) else C.None));
      }
    }
  }

  lemma StepMoves(w: World, a: Action)
    requires Enabled(w, a) && Expected(w, a) && Step(w, a).Ok? && !(a.Push? || a.Pop? || a.Land?)
    ensures Moves(w, a, Step(w, a).w)
  {
    match a {
      case Create(_, _) => Moved(w.block, w.sw.lastCid + 1, Ready, Ready);
      case Sleep(_) => Moved(w.block, Self(w), Ready, InSleep(w.nextTimer));
      case UserYield => Moved(w.block, Self(w), Ready, InUserYield);
      case UserResume(c) => if c in w.yielded { Moved(w.block, c, InUserYield, Ready); }
      case WaitEvent(fd) => Moved(w.block, Self(w), Ready, InPoll(fd));
      case DispatchNext => Moved(w.block, w.loop.rest[0], w.block[w.loop.rest[0]], Ready);
      case Fire(id) => if w.timers[id].proc.Wakes? { Moved(w.block, w.timers[id].proc.cid, InSleep(id), Ready); }
      case _ =>
    }
  }

  // ----- sleepers ----------------------------------------------------------------------

  lemma SleepersKept(w: World, v: World)
    requires Sleepers(w) && SameSleeps(w.block, v.block) && v.timers == w.timers && v.nextTimer == w.nextTimer
    requires v.loop == w.loop
          || (!w.loop.Firing? && !v.loop.Firing? && (v.loop.Passing? ==> v.loop.maxId < v.nextTimer))
    ensures Sleepers(v)
  {
  }

  lemma SleeperAdded(w: World, delay: int)
    requires Sleepers(w) && Enabled(w, Sleep(delay)) && Step(w, Sleep(delay)).Ok?
    ensures Sleepers(Step(w, Sleep(delay)).w)
  {
    var v, c := Step(w, Sleep(delay)).w, Self(w);
    forall d, id {:trigger At(v.block, d, InSleep(id))} | At(v.block, d, InSleep(id)) ensures Armed(v, d, id) {
      assert d != c ==> At(w.block, d, InSleep(id));
    }
  }

  lemma SleeperFired(w: World, id: int)
    requires Sleepers(w) && Enabled(w, Fire(id)) && Expected(w, Fire(id)) && Step(w, Fire(id)).Ok?
    ensures Sleepers(Step(w, Fire(id)).w)
  {
    var v := Step(w, Fire(id)).w;
    forall d, x {:trigger At(v.block, d, InSleep(x))} | At(v.block, d, InSleep(x)) ensures Armed(v, d, x) {
      assert At(w.block, d, InSleep(x));
    }
    forall x {:trigger v.timers[x]} | x in v.timers && v.timers[x].proc.Wakes? && x != id
      ensures At(v.block, v.timers[x].proc.cid, InSleep(x)) {
      assert At(w.block, w.timers[x].proc.cid, InSleep(x));
    }
  }

  lemma SleepersTimers(w: World, a: Action)
    requires Sleepers(w) && Enabled(w, a) && Careful(w, a) && (a.StartTimer? || a.CancelTimer? || a.FireDone?)
    ensures Step(w, a).Ok? && Sleepers(Step(w, a).w)
  {
  }

  lemma SleepersStep(w: World, a: Action)
    requires Sleepers(w) && Enabled(w, a) && Expected(w, a) && Disciplined(w, a) && Step(w, a).Ok?
    requires InMain(w) ==> 0 !in w.block
    ensures Sleepers(Step(w, a).w)
  {
    if a.Sleep? { SleeperAdded(w, a.delay); }
    else if a.Fire? { SleeperFired(w, a.id); }
    else if a.StartTimer? || a.CancelTimer? || a.FireDone? { SleepersTimers(w, a); }
    else if a.Push? || a.Pop? || a.Land? { ChannelMoves(w, a); SleepersKept(w, Step(w, a).w); }
    else { StepMoves(w, a); SleepersKept(w, Step(w, a).w); }
  }

  // ----- descriptors -------------------------------------------------------------------

  lemma PollsKept(w: World, v: World)
    requires Polls(w) && SamePolls(w.block, v.block) && v.poll == w.poll && (v.loop != Outside ==> v.poll.Open?)
    ensures Polls(v)
  {
  }

  lemma WaiterAdded(w: World, fd: int)
    requires Polls(w) && Enabled(w, WaitEvent(fd)) && Careful(w, WaitEvent(fd)) && Step(w, WaitEvent(fd)).Ok?
    ensures Polls(Step(w, WaitEvent(fd)).w)
  {
    var v, c := Step(w, WaitEvent(fd)).w, Self(w);
    forall d, x {:trigger At(v.block, d, InPoll(x))} | At(v.block, d, InPoll(x))
      ensures x in v.poll.registered && v.poll.registered[x] == d {
      assert d != c ==> At(w.block, d, InPoll(x));
    }
  }

  lemma WaiterReported(w: World)
    requires Polls(w) && Enabled(w, DispatchNext) && Expected(w, DispatchNext) && Step(w, DispatchNext).Ok?
    ensures Polls(Step(w, DispatchNext).w)
  {
    var v, c := Step(w, DispatchNext).w, w.loop.rest[0];
    assert At(w.block, c, InPoll(w.block[c].fd));
    forall d, x {:trigger At(v.block, d, InPoll(x))} | At(v.block, d, InPoll(x))
      ensures x in v.poll.registered && v.poll.registered[x] == d {
      assert At(w.block, d, InPoll(x));
    }
    forall x {:trigger x in v.poll.registered} | x in v.poll.registered
      ensures At(v.block, v.poll.registered[x], InPoll(x)) {
      assert At(w.block, w.poll.registered[x], InPoll(x));
    }
  }

  lemma PollsLoop(w: World, a: Action)
    requires Polls(w) && Enabled(w, a) && (a.EnterLoop? || a.PassDone?)
    ensures Polls(Step(w, a).w)
  {
  }

  lemma PollsStep(w: World, a: Action)
    requires Polls(w) && Enabled(w, a) && Expected(w, a) && Careful(w, a) && Step(w, a).Ok?
    requires InMain(w) ==> 0 !in w.block
    ensures Polls(Step(w, a).w)
  {
    if a.WaitEvent? { WaiterAdded(w, a.fd); }
    else if a.DispatchNext? { WaiterReported(w); }
    else if a.EnterLoop? || a.PassDone? { PollsLoop(w, a); }
    else if a.Push? || a.Pop? || a.Land? { ChannelMoves(w, a); PollsKept(w, Step(w, a).w); }
    else { StepMoves(w, a); PollsKept(w, Step(w, a).w); }
  }

  // ----- yields ------------------------------------------------------------------------

  lemma YieldsKept(w: World, v: World)
    requires Yields(w) && SameYields(w.block, v.block) && v.yielded == w.yielded
    ensures Yields(v)
  {
  }

  lemma YieldsChanged(w: World, a: Action)
    requires Yields(w) && Enabled(w, a) && Expected(w, a) && Step(w, a).Ok? && (a.UserYield? || a.UserResume?)
    ensures Yields(Step(w, a).w)
  {
    var v := Step(w, a).w;
    var c := if a.UserYield? then Self(w) else a.cid;
    assert forall d :: d != c ==> (At(v.block, d, InUserYield) <==> At(w.block, d, InUserYield));
  }

  lemma YieldsStep(w: World, a: Action)
    requires Yields(w) && Enabled(w, a) && Expected(w, a) && Step(w, a).Ok?
    requires InMain(w) ==> 0 !in w.block
    ensures Yields(Step(w, a).w)
  {
    if a.UserYield? || a.UserResume? { YieldsChanged(w, a); }
    else if a.Push? || a.Pop? || a.Land? { ChannelMoves(w, a); YieldsKept(w, Step(w, a).w); }
    else { StepMoves(w, a); YieldsKept(w, Step(w, a).w); }
  }

  // ----- reports -----------------------------------------------------------------------

  lemma DispatchesKept(w: World, v: World)
    requires Dispatches(w) && v.loop == w.loop
    requires forall c, fd {:trigger At(v.block, c, InPoll(fd))} ::
               At(w.block, c, InPoll(fd)) ==> At(v.block, c, InPoll(fd))
    ensures Dispatches(v)
  {
    if v.loop.Dispatching? {
      forall i {:trigger v.loop.rest[i]} | 0 <= i < |v.loop.rest|
        ensures v.loop.rest[i] in v.block && v.block[v.loop.rest[i]].InPoll? {
        var c := v.loop.rest[i];
        assert At(w.block, c, InPoll(w.block[c].fd)) ==> At(v.block, c, InPoll(w.block[c].fd));
      }
    }
  }

  lemma ReportsDispatch(w: World, fds: seq<int>)
    requires Polls(w) && Enabled(w, Reported(fds))
    ensures Dispatches(Step(w, Reported(fds)).w)
  {
    var rest := Step(w, Reported(fds)).w.loop.rest;
    forall i {:trigger rest[i]} | 0 <= i < |rest| ensures At(w.block, rest[i], InPoll(fds[i])) {
      var fd := fds[i];
      assert fd in fds;
      assert fd in w.poll.registered;
    }
    forall i, j | 0 <= i < j < |rest| ensures rest[i] != rest[j] {
      assert At(w.block, rest[i], InPoll(fds[i])) && At(w.block, rest[j], InPoll(fds[j]));
    }
  }

  lemma NextDispatched(w: World)
    requires Dispatches(w) && Enabled(w, DispatchNext) && Step(w, DispatchNext).Ok?
    ensures Dispatches(Step(w, DispatchNext).w)
  {
    var v, rest := Step(w, DispatchNext).w, w.loop.rest[1..];
    forall i {:trigger rest[i]} | 0 <= i < |rest| ensures rest[i] in v.block && v.block[rest[i]].InPoll? {
      assert rest[i] == w.loop.rest[i + 1];
    }
  }

  lemma DispatchesStep(w: World, a: Action)
    requires Dispatches(w) && Polls(w) && Enabled(w, a) && Expected(w, a) && Step(w, a).Ok?
    requires InMain(w) ==> 0 !in w.block
    ensures Dispatches(Step(w, a).w)
  {
    var v := Step(w, a).w;
    if a.Reported? { ReportsDispatch(w, a.fds); }
    else if a.DispatchNext? { NextDispatched(w); }
    else if v.loop.Dispatching? {
      if a.Push? || a.Pop? || a.Land? { ChannelMoves(w, a); } else { StepMoves(w, a); }
      if a.WaitEvent? { Moved(w.block, Self(w), Ready, InPoll(a.fd)); }
      DispatchesKept(w, v);
    }
  }

  // ----- channels ----------------------------------------------------------------------

  lemma OrdersResume(w: World, c: int, s: C.Sys, ch: int)
    requires Orders(w) && ch in w.chans && C.Inv(s) && s.landing == C.Some(c) && WaitsIn(w.block, c, ch)
    requires Resume(w.(chans := w.chans[ch := s.(landing := C.None)]), c).Ok?
    ensures Orders(Resume(w.(chans := w.chans[ch := s.(landing := C.None)]), c).w)
  {
    var v := Resume(w.(chans := w.chans[ch := s.(landing := C.None)]), c).w;
    assert v.chans[ch] == s;
  }

  /** A call that waits, or wakes nobody, leaves its channel as it has made it. */
  lemma UseAlone(w: World, ch: int, s: C.Sys, c: int, timeout: int)
    requires AfterChannel(w, ch, s, c, timeout).Ok? && (c in s.waiting || s.landing == C.None)
    ensures AfterChannel(w, ch, s, c, timeout).w.chans == w.chans[ch := s]
  {
  }

  lemma OrdersPut(w: World, v: World, ch: int, s: C.Sys)
    requires Orders(w) && C.Inv(s) && v.chans == w.chans[ch := s]
    ensures Orders(v)
  {
  }

  lemma OrdersUse(w: World, ch: int, e: C.Event, timeout: int)
    requires Orders(w) && ch in w.chans && C.Enabled(w.chans[ch], e)
    requires Peer(w, ch, C.Next(w.chans[ch], e)) && UseChannel(w, ch, e, timeout).Ok?
    ensures Orders(UseChannel(w, ch, e, timeout).w)
  {
    var t := C.Next(w.chans[ch], e);
    C.InvNext(w.chans[ch], e);
    if Self(w) !in t.waiting && t.landing.Some? {
      OrdersResume(w, t.landing.value, t, ch);
    } else {
      UseAlone(w, ch, t, Self(w), timeout);
      OrdersPut(w, UseChannel(w, ch, e, timeout).w, ch, t);
    }
  }

  lemma OrdersStep(w: World, a: Action)
    requires Orders(w) && Enabled(w, a) && Expected(w, a) && Step(w, a).Ok?
    ensures Orders(Step(w, a).w)
  {
    match a {
      case Push(ch, d, timeout) => OrdersUse(w, ch, C.CallPush(Self(w), d), timeout);
      case Pop(ch, timeout) => OrdersUse(w, ch, C.CallPop(Self(w)), timeout);
      case Land => OrdersUse(w.(block := w.block[Self(w) := Ready]), w.block[Self(w)].ch, C.Land, 0);
      case NewChannel(_, capacity) => C.InvFresh(capacity);
      case _ => assert Step(w, a).w.chans == w.chans;
    }
  }

  // ----- every step --------------------------------------------------------------------

  /** The single-waker theorem for one step: under the discipline no enabled step resumes a
      coroutine that is not suspended, and every step keeps the books. */
  lemma StepKeepsInv(w: World, a: Action)
    requires Inv(w) && Enabled(w, a) && Disciplined(w, a)
    ensures Step(w, a).Ok? && Inv(Step(w, a).w)
  {
    InvExpected(w, a);
    ResumesParked(w, a);
    NoMain(w);
    OrdersStep(w, a);
    SleepersStep(w, a);
    PollsStep(w, a);
    YieldsStep(w, a);
    DispatchesStep(w, a);
  }

  lemma NoMain(w: World)
    requires Stack(w)
    ensures 0 !in w.block
  {
    assert 0 in w.block ==> S.Live(w.sw, 0);
  }
}

/** What every step of careful code keeps, channel waits with a timeout included: whoever is
    suspended in a call with a timer has that timer in the list, and whoever waits for a
    descriptor has been counted. */
module RuntimeCareful {
  import S = SwitchSpec
  import C = ChannelSpec
  import opened Runtime
  import opened RuntimeBase

  ghost predicate ArmedStill(w: World, v: World) {
    forall d, id {:trigger Armed(w, d, id)} {:trigger Armed(v, d, id)} :: Armed(w, d, id) ==> Armed(v, d, id)
  }

  /** Nobody has come to a call with a timer. */
  lemma AlarmsKept(w: World, v: World)
    requires Alarms(w) && Ids(v) && ArmedStill(w, v) && v.sw.parked.Keys <= w.sw.parked.Keys
    requires v.block == w.block
    ensures Alarms(v)
  {
  }

  /** Only `c` has moved, to a standing `b`; if that comes with a timer, the timer is there. */
  lemma AlarmsMoved(w: World, v: World, c: int, b: Block)
    requires Alarms(w) && Ids(v) && v.block == w.block[c := b] && v.sw.parked.Keys <= w.sw.parked.Keys + {c}
    requires forall d, id {:trigger Armed(v, d, id)} :: Armed(w, d, id) && d != c ==> Armed(v, d, id)
    requires b.InSleep? ==> Armed(v, c, b.timer)
    requires b.InChannel? && b.alarm.Some? && c in v.sw.parked ==> Armed(v, c, b.alarm.value)
    ensures Alarms(v)
  {
    forall d, id {:trigger At(v.block, d, InSleep(id))} | At(v.block, d, InSleep(id)) ensures Armed(v, d, id) {
      assert d != c ==> At(w.block, d, InSleep(id));
    }
    forall d, ch, id {:trigger At(v.block, d, InChannel(ch, C.Some(id)))} |
      d in v.sw.parked && At(v.block, d, InChannel(ch, C.Some(id))) ensures Armed(v, d, id) {
      assert d in v.sw.parked.Keys;
      assert d != c ==> At(w.block, d, InChannel(ch, C.Some(id))) && d in w.sw.parked;
    }
  }

  lemma AlarmsSuspend(w: World, b: Block)
    requires Alarms(w) && !InMain(w) && Suspend(w, b).Ok? && !b.InSleep? && (b.InChannel? ==> b.alarm == C.None)
    ensures Alarms(Suspend(w, b).w)
  {
    AlarmsMoved(w, Suspend(w, b).w, S.Top(w.sw), b);
  }

  /** A call with a timer: the timer is made, and its caller suspends itself in `b`. */
  lemma AlarmsArm(w: World, delay: int, b: Block)
    requires Alarms(w) && !InMain(w) && Suspend(ArmTimer(w, Wakes(Self(w)), delay), b).Ok?
    requires b == InSleep(w.nextTimer) || (b.InChannel? && b.alarm == C.Some(w.nextTimer))
    ensures Alarms(Suspend(ArmTimer(w, Wakes(Self(w)), delay), b).w)
  {
    AlarmsMoved(w, Suspend(ArmTimer(w, Wakes(Self(w)), delay), b).w, Self(w), b);
  }

  /** `fired`: the resume is the callback of a timer of `c`, which counts as spent already. */
  lemma AlarmsResume(w: World, u: World, c: int)
    requires Alarms(w) && Ids(u) && Resume(u, c).Ok? && u.block == w.block && u.sw == w.sw
    requires forall d, id {:trigger Armed(u, d, id)} :: Armed(w, d, id) && d != c ==> Armed(u, d, id)
    ensures Alarms(Resume(u, c).w)
  {
    var v := Resume(u, c).w;
    assert forall d, id {:trigger Armed(v, d, id)} :: Armed(u, d, id) ==> Armed(v, d, id);
    var b := if w.block[c].InChannel? then w.block[c] else Ready;
    assert v.block == w.block[c := b];
    AlarmsMoved(w, v, c, b);
  }

  lemma AlarmsAfterChannel(w: World, ch: int, s: C.Sys, timeout: int)
    requires Alarms(w) && AfterChannel(w, ch, s, Self(w), timeout).Ok? && (InMain(w) ==> Self(w) !in s.waiting)
    ensures Alarms(AfterChannel(w, ch, s, Self(w), timeout).w)
  {
    var u, c := w.(chans := w.chans[ch := s]), Self(w);
    AlarmsKept(w, u);
    if c in s.waiting {
      if timeout > 0 {
        AlarmsArm(u, timeout, InChannel(ch, C.Some(w.nextTimer)));
      } else {
        AlarmsSuspend(u, InChannel(ch, C.None));
      }
    } else if s.landing.Some? {
      AlarmsResume(w, w.(chans := w.chans[ch := s.(landing := C.None)]), s.landing.value);
    }
  }

  lemma AlarmsLand(w: World)
    requires Base(w) && Alarms(w) && Enabled(w, Land) && Step(w, Land).Ok?
    ensures Alarms(Step(w, Land).w)
  {
    var c := Self(w);
    var v := w.(block := w.block[c := Ready]);
    AlarmsMoved(w, v, c, Ready);
    AlarmsAfterChannel(v, w.block[c].ch, C.Next(w.chans[w.block[c].ch], C.Land), 0);
  }

  lemma AlarmsCall(w: World, ch: int, e: C.Event, timeout: int)
    requires Base(w) && Alarms(w) && AtUserCode(w) && ch in w.chans && UseChannel(w, ch, e, timeout).Ok?
    requires e == C.CallPop(Self(w)) || (e.CallPush? && e.co == Self(w))
    requires InMain(w) ==> if e.CallPush? then !C.Full(w.chans[ch].chan) else w.chans[ch].chan.data != []
    ensures Alarms(UseChannel(w, ch, e, timeout).w)
  {
    var s := w.chans[ch];
    assert Self(w) in s.waiting ==> WaitsIn(w.block, Self(w), ch);
    assert Self(w) in w.block ==> S.Live(w.sw, Self(w));
    ChannelEffect(s, e);
    AlarmsAfterChannel(w, ch, C.Next(s, e), timeout);
  }

  lemma AlarmsTimers(w: World, a: Action)
    requires Alarms(w) && Enabled(w, a) && Careful(w, a)
    requires a.StartTimer? || a.CancelTimer? || a.Tick? || a.FireDone? || a.EnterLoop? || a.Reported?
             || a.DispatchDone? || a.PassDone? || a.Compute? || a.NewChannel?
    ensures Step(w, a).Ok? && Alarms(Step(w, a).w)
  {
    AlarmsKept(w, Step(w, a).w);
  }

  lemma AlarmsCreate(w: World, top: int, frame: int)
    requires Alarms(w) && Enabled(w, Create(top, frame))
    ensures Alarms(Step(w, Create(top, frame)).w)
  {
    var v := Step(w, Create(top, frame)).w;
    AlarmsMoved(w, v, v.sw.lastCid, Ready);
  }

  lemma AlarmsEnd(w: World)
    requires Alarms(w) && Enabled(w, End)
    ensures Alarms(Step(w, End).w)
  {
    var v := Step(w, End).w;
    assert forall c, b {:trigger At(v.block, c, b)} :: At(v.block, c, b) ==> At(w.block, c, b);
  }

  lemma AlarmsResuming(w: World, a: Action)
    requires Alarms(w) && Enabled(w, a) && Step(w, a).Ok? && (a.UserResume? || a.DispatchNext? || a.Fire?)
    ensures Alarms(Step(w, a).w)
  {
    match a {
      case UserResume(c) => if c in w.yielded { AlarmsResume(w, w.(yielded := w.yielded - {c}), c); }
      case DispatchNext => AlarmsResume(w, w.(loop := Dispatching(w.loop.rest[1..])), w.loop.rest[0]);
      case Fire(id) =>
        var v := w.(loop := Firing(w.loop.maxId, id, w.timers[id].proc));
        if w.timers[id].proc.Wakes? { AlarmsResume(w, v, w.timers[id].proc.cid); } else { AlarmsKept(w, v); }
    }
  }

  lemma AlarmsSuspending(w: World, a: Action)
    requires Alarms(w) && Enabled(w, a) && Step(w, a).Ok? && (a.Sleep? || a.UserYield? || a.WaitEvent?)
    ensures Alarms(Step(w, a).w)
  {
    match a {
      case Sleep(delay) => AlarmsArm(w, delay, InSleep(w.nextTimer));
      case UserYield =>
        var u := w.(yielded := w.yielded + {Self(w)});
        AlarmsKept(w, u);
        AlarmsSuspend(u, InUserYield);
      case WaitEvent(fd) =>
        var u := w.(poll := Registered(w.poll, fd, Self(w)));
        AlarmsKept(w, u);
        AlarmsSuspend(u, InPoll(fd));
    }
  }

  lemma AlarmsStep(w: World, a: Action)
    requires Base(w) && Alarms(w) && Enabled(w, a) && Careful(w, a) && Step(w, a).Ok?
    ensures Alarms(Step(w, a).w)
  {
    if a.Create? { AlarmsCreate(w, a.top, a.frame); }
    else if a.End? { AlarmsEnd(w); }
    else if a.Sleep? || a.UserYield? || a.WaitEvent? { AlarmsSuspending(w, a); }
    else if a.UserResume? || a.DispatchNext? || a.Fire? { AlarmsResuming(w, a); }
    else if a.Push? { AlarmsCall(w, a.ch, C.CallPush(Self(w), a.d), a.timeout); }
    else if a.Pop? { AlarmsCall(w, a.ch, C.CallPop(Self(w)), a.timeout); }
    else if a.Land? { AlarmsLand(w); }
    else { AlarmsTimers(w, a); }
  }

  // ----- sockets -----------------------------------------------------------------------

  /** The counter does not fall while the poll lives, and the loop has a poll. */
  ghost predicate Counts(w: World, v: World) {
    && (w.poll.Open? ==> v.poll.Open? && v.poll.eventNum >= w.poll.eventNum)
    && (v.poll.Open? ==> v.poll.eventNum >= 0)
    && (v.loop != Outside ==> v.poll.Open?)
  }

  lemma SocketsMoved(w: World, v: World, c: int, b: Block)
    requires Sockets(w) && Counts(w, v) && v.block == w.block[c := b]
    requires b.InPoll? ==> v.poll.Open? && v.poll.eventNum > 0
    ensures Sockets(v)
  {
    forall d, fd {:trigger At(v.block, d, InPoll(fd))} | At(v.block, d, InPoll(fd))
      ensures v.poll.Open? && v.poll.eventNum > 0 {
      assert d != c ==> At(w.block, d, InPoll(fd));
    }
  }

  lemma SocketsKept(w: World, v: World)
    requires Sockets(w) && Counts(w, v) && v.block == w.block
    ensures Sockets(v)
  {
  }

  lemma SocketsResume(w: World, c: int)
    requires Sockets(w) && Resume(w, c).Ok?
    ensures Sockets(Resume(w, c).w) && Counts(w, Resume(w, c).w)
  {
    var v := Resume(w, c).w;
    SocketsMoved(w, v, c, if w.block[c].InChannel? then w.block[c] else Ready);
  }

  lemma SocketsAfterChannel(w: World, ch: int, s: C.Sys, timeout: int)
    requires Sockets(w) && AfterChannel(w, ch, s, Self(w), timeout).Ok? && (InMain(w) ==> Self(w) !in s.waiting)
    ensures Sockets(AfterChannel(w, ch, s, Self(w), timeout).w)
  {
    var c := Self(w);
    var v := AfterChannel(w, ch, s, c, timeout).w;
    if c in s.waiting {
      SocketsMoved(w, v, c, InChannel(ch, if timeout > 0 then C.Some(w.nextTimer) else C.None));
    } else if s.landing.Some? {
      var u := w.(chans := w.chans[ch := s.(landing := C.None)]);
      SocketsKept(w, u);
      SocketsResume(u, s.landing.value);
    }
  }

  lemma SocketsChannels(w: World, a: Action)
    requires Base(w) && Sockets(w) && Enabled(w, a) && Step(w, a).Ok? && (a.Push? || a.Pop? || a.Land?)
    ensures Sockets(Step(w, a).w)
  {
    if a.Land? {
      var v := w.(block := w.block[Self(w) := Ready]);
      SocketsMoved(w, v, Self(w), Ready);
      SocketsAfterChannel(v, w.block[Self(w)].ch, C.Next(w.chans[w.block[Self(w)].ch], C.Land), 0);
    } else {
      var ch, e := a.ch, if a.Push? then C.CallPush(Self(w), a.d) else C.CallPop(Self(w));
      assert Self(w) in w.chans[ch].waiting ==> WaitsIn(w.block, Self(w), ch);
      assert Self(w) in w.block ==> S.Live(w.sw, Self(w));
      ChannelEffect(w.chans[ch], e);
      SocketsAfterChannel(w, ch, C.Next(w.chans[ch], e), a.timeout);
    }
  }

  lemma SocketsResuming(w: World, a: Action)
    requires Sockets(w) && Enabled(w, a) && Step(w, a).Ok? && (a.UserResume? || a.DispatchNext? || a.Fire?)
    ensures Sockets(Step(w, a).w)
  {
    match a {
      case UserResume(c) => if c in w.yielded { SocketsResume(w.(yielded := w.yielded - {c}), c); }
      case DispatchNext =>
        SocketsKept(w, w.(loop := Dispatching(w.loop.rest[1..])));
        SocketsResume(w.(loop := Dispatching(w.loop.rest[1..])), w.loop.rest[0]);
      case Fire(id) =>
        var v := w.(loop := Firing(w.loop.maxId, id, w.timers[id].proc));
        SocketsKept(w, v);
        if w.timers[id].proc.Wakes? { SocketsResume(v, w.timers[id].proc.cid); }
    }
  }

  lemma SocketsOther(w: World, a: Action)
    requires Sockets(w) && Enabled(w, a) && Step(w, a).Ok?
    requires a.StartTimer? || a.CancelTimer? || a.Tick? || a.FireDone? || a.EnterLoop? || a.Reported?
             || a.DispatchDone? || a.PassDone? || a.Compute? || a.NewChannel? || a.End?
    ensures Sockets(Step(w, a).w)
  {
    var v := Step(w, a).w;
    if a.End? {
      assert forall c, b {:trigger At(v.block, c, b)} :: At(v.block, c, b) ==> At(w.block, c, b);
    } else if !a.PassDone? {
      SocketsKept(w, v);
    }
  }

  lemma SocketsMoving(w: World, a: Action)
    requires Sockets(w) && Enabled(w, a) && Step(w, a).Ok?
    requires a.Create? || a.Sleep? || a.UserYield? || a.WaitEvent?
    ensures Sockets(Step(w, a).w)
  {
    var v := Step(w, a).w;
    var c := if a.Create? then v.sw.lastCid else Self(w);
    SocketsMoved(w, v, c, v.block[c]);
  }

  lemma SocketsStep(w: World, a: Action)
    requires Base(w) && Sockets(w) && Enabled(w, a) && Step(w, a).Ok?
    ensures Sockets(Step(w, a).w)
  {
    if a.Create? || a.Sleep? || a.UserYield? || a.WaitEvent? { SocketsMoving(w, a); }
    else if a.UserResume? || a.DispatchNext? || a.Fire? { SocketsResuming(w, a); }
    else if a.Push? || a.Pop? || a.Land? { SocketsChannels(w, a); }
    else { SocketsOther(w, a); }
  }

  // ----- together ----------------------------------------------------------------------

  ghost predicate Sound(w: World) {
    Base(w) && Alarms(w) && Sockets(w)
  }

  lemma SoundStep(w: World, a: Action)
    requires Sound(w) && Enabled(w, a) && Careful(w, a) && Step(w, a).Ok?
    ensures Sound(Step(w, a).w)
  {
    BaseStep(w, a);
    AlarmsStep(w, a);
    SocketsStep(w, a);
  }
}

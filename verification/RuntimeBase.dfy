/** What every step keeps, whatever PHP code does: the standings of coroutines agree with the
    switcher and with the channels, and two things only can go wrong: the resume of a coroutine
    that is not suspended, and the putting off of an event that its own callback has deleted. */
module RuntimeBase {
  import S = SwitchSpec
  import C = ChannelSpec
  import opened Runtime

  /** The step is carried out and leaves the books in order, or it resumes a coroutine that
      is not suspended, or it puts off an event that is gone. */
  ghost predicate Sane(w: World, o: Outcome) {
    match o
    case Ok(v) => Base(v)
    case BadResume(c) => c !in w.sw.parked
    case FreedTimer(id) => Freed(w) && id == w.loop.id
    case Stuck => false
  }

  lemma NoLanding(w: World, ch: int)
    requires Landings(w) && Quiet(w) && ch in w.chans
    ensures w.chans[ch].landing == C.None
  {
  }

  // ----- suspending --------------------------------------------------------------------

  lemma StackSuspend(w: World, b: Block)
    requires Stack(w) && InCoroutine(w) && b != Ready
    ensures Suspend(w, b).Ok? && Stack(Suspend(w, b).w) && Quiet(Suspend(w, b).w)
  {
    S.LiveStep(w.sw, S.Yield);
    var v := Suspend(w, b).w;
    assert S.Live(w.sw, S.Top(w.sw));
    if !InMain(v) {
      assert S.Top(v.sw) in w.sw.active && S.Live(w.sw, S.Top(v.sw));
    }
  }

  /** `c` is the only one whose standing changes, and neither before nor afterwards does it
      stand in a channel. */
  lemma LandingsKept(w: World, v: World, c: int)
    requires Landings(w) && Quiet(w) && Quiet(v) && v.chans == w.chans
    requires forall d :: d != c ==> (d in v.block <==> d in w.block) && (d in v.block ==> v.block[d] == w.block[d])
    requires forall ch :: !WaitsIn(w.block, c, ch) && !WaitsIn(v.block, c, ch)
    ensures Landings(v)
  {
    forall ch {:trigger v.chans[ch]} | ch in v.chans ensures v.chans[ch].landing == C.None {
      NoLanding(w, ch);
    }
    forall ch, d {:trigger d in v.chans[ch].waiting} | ch in v.chans && d in v.chans[ch].waiting
      ensures WaitsIn(v.block, d, ch) {
      assert WaitsIn(w.block, d, ch);
    }
    forall ch, d {:trigger WaitsIn(v.block, d, ch)} | WaitsIn(v.block, d, ch)
      ensures ch in v.chans && d in v.chans[ch].waiting {
      assert WaitsIn(w.block, d, ch);
    }
  }

  lemma SuspendSane(w: World, b: Block)
    requires Base(w) && InCoroutine(w) && b != Ready && !b.InChannel?
    ensures Suspend(w, b).Ok? && Base(Suspend(w, b).w) && Quiet(Suspend(w, b).w)
  {
    StackSuspend(w, b);
    LandingsKept(w, Suspend(w, b).w, S.Top(w.sw));
  }

  // ----- resuming ----------------------------------------------------------------------

  lemma StackResumed(w: World, c: int, v: World)
    requires Stack(w) && Quiet(w) && c in w.sw.parked && v.sw == S.Step(w.sw, S.Resume(c))
    requires v.block == w.block[c := Ready] || (v.block == w.block && w.block[c].InChannel?)
    ensures Stack(v) && !InMain(v) && S.Top(v.sw) == c
  {
    S.LiveStep(w.sw, S.Resume(c));
    assert S.Live(w.sw, c);
  }

  lemma StackResume(w: World, c: int)
    requires Stack(w) && Quiet(w) && Resume(w, c).Ok?
    ensures Stack(Resume(w, c).w) && !InMain(Resume(w, c).w) && S.Top(Resume(w, c).w.sw) == c
  {
    StackResumed(w, c, Resume(w, c).w);
  }

  lemma ResumedLands(w: World, c: int)
    requires Landings(w) && Quiet(w) && Resume(w, c).Ok? && w.block[c].InChannel?
    ensures Landings(Resume(w, c).w)
  {
    var v, ch := Resume(w, c).w, w.block[c].ch;
    assert WaitsIn(w.block, c, ch) && S.Top(v.sw) == c;
    forall x {:trigger v.chans[x]} | x in v.chans && x != ch ensures v.chans[x].landing == C.None {
      NoLanding(w, x);
    }
    forall x, d {:trigger d in v.chans[x].waiting} | x in v.chans && d in v.chans[x].waiting
      ensures WaitsIn(v.block, d, x) {
      assert d in w.chans[x].waiting;
    }
  }

  lemma ResumeSane(w: World, c: int)
    requires Base(w) && Quiet(w)
    ensures Sane(w, Resume(w, c))
    ensures Resume(w, c).Ok? <==> c in w.sw.parked
  {
    if c in w.sw.parked {
      assert S.Live(w.sw, c);
      if w.block[c].InChannel? {
        assert WaitsIn(w.block, c, w.block[c].ch);
        ResumedLands(w, c);
      } else {
        StackResume(w, c);
        LandingsKept(w, Resume(w, c).w, c);
      }
      StackResume(w, c);
    }
  }

  // ----- channels ----------------------------------------------------------------------

  /** Who waits after a stretch of a channel call: a call adds its caller exactly if it must
      wait, a stretch behind the wait takes its own away. */
  lemma ChannelEffect(s: C.Sys, e: C.Event)
    requires C.Enabled(s, e)
    ensures var t := C.Next(s, e);
            match e
            case CallPush(c, _) =>
              if C.Full(s.chan) then t.waiting.Keys == s.waiting.Keys + {c} && t.landing == C.None
              else t.waiting == s.waiting
            case CallPop(c) =>
              if s.chan.data == [] then t.waiting.Keys == s.waiting.Keys + {c} && t.landing == C.None
              else t.waiting == s.waiting
            case Land => t.waiting == s.waiting - {s.landing.value}
  {
  }

  /** Channel `ch` has been used by `c`, who does not wait; its queues may have changed. */
  lemma LandingsUsed(w: World, v: World, ch: int, c: int)
    requires Landings(w) && ch in w.chans && Quiet(v) && v.sw == w.sw && v.chans.Keys == w.chans.Keys
    requires forall x {:trigger v.chans[x]} :: x in v.chans ==> v.chans[x].landing == C.None
    requires forall x {:trigger v.chans[x]} :: x in v.chans && x != ch ==> v.chans[x] == w.chans[x]
    requires v.chans[ch].waiting.Keys == w.chans[ch].waiting.Keys - {c}
    requires v.block == w.block || v.block == w.block[c := Ready]
    requires forall x :: WaitsIn(w.block, c, x) ==> x == ch && v.block == w.block[c := Ready]
    ensures Landings(v)
  {
    forall x, d {:trigger d in v.chans[x].waiting} | x in v.chans && d in v.chans[x].waiting
      ensures WaitsIn(v.block, d, x) {
      assert d in w.chans[x].waiting.Keys;
      assert d in v.chans[x].waiting.Keys;
      assert d in w.chans[x].waiting;
    }
    forall x, d {:trigger WaitsIn(v.block, d, x)} | WaitsIn(v.block, d, x)
      ensures x in v.chans && d in v.chans[x].waiting {
      assert WaitsIn(w.block, d, x);
      assert d in v.chans[x].waiting.Keys;
    }
  }

  lemma StackReady(w: World, v: World)
    requires Stack(w) && !InMain(w) && v.sw == w.sw && v.block == w.block[S.Top(w.sw) := Ready]
    ensures Stack(v)
  {
    assert S.Live(w.sw, S.Top(w.sw));
  }

  lemma PassSane(w: World, u: World, ch: int, s: C.Sys, c: int)
    requires Base(u) && Quiet(u) && ch in w.chans && c !in s.waiting
    requires u == w.(chans := w.chans[ch := s.(landing := C.None)])
    ensures Sane(w, AfterChannel(w, ch, s, c, 0))
    ensures forall timeout :: AfterChannel(w, ch, s, c, timeout) == AfterChannel(w, ch, s, c, 0)
  {
    if s.landing.Some? {
      ResumeSane(u, s.landing.value);
    } else {
      assert s.(landing := C.None) == s;
    }
  }

  lemma LandSane(w: World)
    requires Base(w) && Enabled(w, Land)
    ensures Sane(w, Step(w, Land))
  {
    var c := Self(w);
    var ch := w.block[c].ch;
    assert WaitsIn(w.block, c, ch);
    var v := w.(block := w.block[c := Ready]);
    var t := C.Next(w.chans[ch], C.Land);
    ChannelEffect(w.chans[ch], C.Land);
    var u := v.(chans := v.chans[ch := t.(landing := C.None)]);
    forall x {:trigger u.chans[x]} | x in u.chans ensures u.chans[x].landing == C.None {
      assert WaitsIn(w.block, c, x) ==> x == ch;
    }
    StackReady(w, u);
    LandingsUsed(w, u, ch, c);
    PassSane(v, u, ch, t, c);
  }

  lemma CallSane(w: World, ch: int, e: C.Event, timeout: int)
    requires Base(w) && AtUserCode(w) && ch in w.chans
    requires e == C.CallPop(Self(w)) || (e.CallPush? && e.co == Self(w))
    requires InMain(w) ==> if e.CallPush? then !C.Full(w.chans[ch].chan) else w.chans[ch].chan.data != []
    ensures Sane(w, UseChannel(w, ch, e, timeout))
  {
    var s, c := w.chans[ch], Self(w);
    NoLanding(w, ch);
    assert c in s.waiting ==> WaitsIn(w.block, c, ch);
    assert c in w.block ==> S.Live(w.sw, c);
    assert c !in s.waiting;
    var t := C.Next(s, e);
    ChannelEffect(s, e);
    if c in t.waiting {
      WaitSane(w, ch, t, timeout);
    } else {
      var u := w.(chans := w.chans[ch := t.(landing := C.None)]);
      forall x {:trigger u.chans[x]} | x in u.chans ensures u.chans[x].landing == C.None {
        if x != ch { NoLanding(w, x); }
      }
      LandingsUsed(w, u, ch, c);
      PassSane(w, u, ch, t, c);
    }
  }

  lemma WaitSane(w: World, ch: int, t: C.Sys, timeout: int)
    requires Base(w) && InCoroutine(w) && ch in w.chans
    requires t.waiting.Keys == w.chans[ch].waiting.Keys + {Self(w)} && t.landing == C.None
    ensures AfterChannel(w, ch, t, Self(w), timeout).Ok?
    ensures var v := AfterChannel(w, ch, t, Self(w), timeout).w; Base(v) && Quiet(v)
  {
    var c := Self(w);
    var u := w.(chans := w.chans[ch := t]);
    assert c in t.waiting.Keys;
    var v := AfterChannel(w, ch, t, c, timeout).w;
    if timeout > 0 {
      StackSuspend(ArmTimer(u, Wakes(c), timeout), InChannel(ch, C.Some(w.nextTimer)));
    } else {
      StackSuspend(u, InChannel(ch, C.None));
    }
    LandingsWait(w, v, ch, t, c);
  }

  lemma LandingsWait(w: World, v: World, ch: int, t: C.Sys, c: int)
    requires Landings(w) && Quiet(w) && Quiet(v) && ch in w.chans && v.chans == w.chans[ch := t]
    requires t.waiting.Keys == w.chans[ch].waiting.Keys + {c} && t.landing == C.None
    requires At(w.block, c, Ready) && c in v.block && v.block == w.block[c := v.block[c]] && WaitsIn(v.block, c, ch)
    ensures Landings(v)
  {
    forall x {:trigger v.chans[x]} | x in v.chans ensures v.chans[x].landing == C.None {
      if x != ch { NoLanding(w, x); }
    }
    forall x, d {:trigger d in v.chans[x].waiting} | x in v.chans && d in v.chans[x].waiting
      ensures WaitsIn(v.block, d, x) {
      assert x == ch ==> d in t.waiting.Keys;
      assert d != c || x != ch ==> d in w.chans[x].waiting;
    }
    forall x, d {:trigger WaitsIn(v.block, d, x)} | WaitsIn(v.block, d, x)
      ensures x in v.chans && d in v.chans[x].waiting {
      assert d != c ==> WaitsIn(w.block, d, x);
      assert x == ch ==> d in t.waiting.Keys;
    }
  }

  // ----- every step --------------------------------------------------------------------

  lemma ComputeSane(w: World, regs: S.Registers)
    requires Base(w) && Enabled(w, Compute(regs))
    ensures Sane(w, Step(w, Compute(regs)))
  {
    var v := Step(w, Compute(regs)).w;
    assert forall c :: S.Live(v.sw, c) <==> S.Live(w.sw, c);
  }

  lemma StackCreate(w: World, op: S.Op, v: World)
    requires Stack(w) && Quiet(w) && op.Create? && v.sw == S.Step(w.sw, op) && v.block == w.block[v.sw.lastCid := Ready]
    ensures Stack(v) && !InMain(v) && S.Top(v.sw) == v.sw.lastCid && v.sw.lastCid !in w.block
  {
    S.LiveStep(w.sw, op);
    assert !S.Live(w.sw, v.sw.lastCid);
  }

  lemma CreateSane(w: World, top: int, frame: int)
    requires Base(w) && Enabled(w, Create(top, frame))
    ensures Sane(w, Step(w, Create(top, frame)))
  {
    var v := Step(w, Create(top, frame)).w;
    StackCreate(w, S.Op.Create(top, frame), v);
    LandingsKept(w, v, v.sw.lastCid);
  }

  lemma EndSane(w: World)
    requires Base(w) && Enabled(w, End)
    ensures Sane(w, Step(w, End))
  {
    var v := Step(w, End).w;
    S.LiveStep(w.sw, S.Op.End);
    if !InMain(v) {
      assert S.Top(v.sw) in v.sw.active && S.Live(v.sw, S.Top(v.sw));
    }
    LandingsKept(w, v, S.Top(w.sw));
  }

  lemma NewChannelSane(w: World, ch: int, capacity: nat)
    requires Base(w) && Enabled(w, NewChannel(ch, capacity))
    ensures Sane(w, Step(w, NewChannel(ch, capacity)))
  {
  }

  lemma BaseKept(w: World, v: World)
    requires Base(w) && v.sw == w.sw && v.block == w.block && v.chans == w.chans
    ensures Base(v)
  {
  }

  /** Steps that leave the switcher, the standings and the channels alone. */
  lemma OtherSane(w: World, a: Action)
    requires Base(w) && Enabled(w, a)
    requires a.StartTimer? || a.CancelTimer? || a.Tick? || a.EnterLoop? || a.Reported? || a.DispatchDone?
             || a.FireDone? || a.PassDone?
    ensures Sane(w, Step(w, a)) && (Step(w, a).Ok? <==> !(a.FireDone? && Freed(w)))
  {
    if Step(w, a).Ok? { BaseKept(w, Step(w, a).w); }
  }

  lemma SuspendingSane(w: World, a: Action)
    requires Base(w) && Enabled(w, a) && (a.Sleep? || a.UserYield? || a.WaitEvent?)
    ensures Step(w, a).Ok? && Base(Step(w, a).w) && Quiet(Step(w, a).w)
  {
    match a {
      case Sleep(delay) => SuspendSane(ArmTimer(w, Wakes(Self(w)), delay), InSleep(w.nextTimer));
      case UserYield => SuspendSane(w.(yielded := w.yielded + {Self(w)}), InUserYield);
      case WaitEvent(fd) => SuspendSane(w.(poll := Registered(w.poll, fd, Self(w))), InPoll(fd));
    }
  }

  lemma ResumingSane(w: World, a: Action)
    requires Base(w) && Enabled(w, a) && (a.UserResume? || a.DispatchNext? || a.Fire?)
    ensures Sane(w, Step(w, a))
  {
    match a {
      case UserResume(c) => if c in w.yielded { ResumeSane(w.(yielded := w.yielded - {c}), c); }
      case DispatchNext => ResumeSane(w.(loop := Dispatching(w.loop.rest[1..])), w.loop.rest[0]);
      case Fire(id) =>
        var v := w.(loop := Firing(w.loop.maxId, id, w.timers[id].proc));
        if w.timers[id].proc.Wakes? { ResumeSane(v, w.timers[id].proc.cid); }
    }
  }

  /** Every step that can be taken, by careful code or not, has a meaning: it leaves the books
      in order, or resumes a coroutine that is not suspended, or puts off an event that is
      gone. */
  lemma BaseStep(w: World, a: Action)
    requires Base(w) && Enabled(w, a)
    ensures Sane(w, Step(w, a))
  {
    match a {
      case Compute(regs) => ComputeSane(w, regs);
      case Create(top, frame) => CreateSane(w, top, frame);
      case End => EndSane(w);
      case Sleep(_) => SuspendingSane(w, a);
      case UserYield => SuspendingSane(w, a);
      case WaitEvent(_) => SuspendingSane(w, a);
      case UserResume(_) => ResumingSane(w, a);
      case DispatchNext => ResumingSane(w, a);
      case Fire(_) => ResumingSane(w, a);
      case NewChannel(ch, capacity) => NewChannelSane(w, ch, capacity);
      case Push(ch, d, timeout) => CallSane(w, ch, C.CallPush(Self(w), d), timeout);
      case Pop(ch, timeout) => CallSane(w, ch, C.CallPop(Self(w)), timeout);
      case Land => LandSane(w);
      case _ => OtherSane(w, a);
    }
  }
}

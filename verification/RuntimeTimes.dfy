/** How long waits last and how far apart timers fire, with the clock and the pass as they are:
    over all runs not sooner than asked for, and, if no event keeps passes from ending, in some
    run exactly then. */
module RuntimeTimes {
  import S = SwitchSpec
  import C = ChannelSpec
  import opened Runtime
  import opened RuntimeBase
  import opened RuntimeCareful
  import opened RuntimeSteps
  import opened RuntimeRuns
  import opened RuntimeLoop

  /** A schedule of careful code at times the clock allows. */
  ghost predicate TimelySchedule(w: World, steps: seq<Action>)
    ensures TimelySchedule(w, steps) ==> CarefulSchedule(w, steps)
    decreases |steps|
  {
    steps == [] ||
    (Enabled(w, steps[0]) && Careful(w, steps[0]) && Timely(w, steps[0]) &&
     (Step(w, steps[0]).Ok? ==> TimelySchedule(Step(w, steps[0]).w, steps[1..])))
  }

  // ----- what steps leave of timers ----------------------------------------------------

  /** Every timer of `v` was there before, or is the next one. */
  ghost predicate OldOrNext(w: World, v: World) {
    && v.nextTimer >= w.nextTimer
    && forall id {:trigger v.timers[id]} :: id in v.timers && id != w.nextTimer ==>
         id in w.timers && v.timers[id] == w.timers[id]
  }

  lemma CallTimers(w: World, ch: int, e: C.Event, timeout: int)
    requires UseChannel(w, ch, e, timeout).Ok?
    ensures var v := UseChannel(w, ch, e, timeout).w;
            && OldOrNext(w, v) && v.loop == w.loop && v.now == w.now
            && (v.timers == w.timers || v.timers == ArmTimer(w, Wakes(Self(w)), timeout).timers)
  {
    var v, s := UseChannel(w, ch, e, timeout).w, C.Next(w.chans[ch], e);
    if Self(w) in s.waiting && timeout > 0 {
      assert v.timers == ArmTimer(w, Wakes(Self(w)), timeout).timers && v.nextTimer == w.nextTimer + 1;
    } else {
      assert v.timers == w.timers && v.nextTimer == w.nextTimer;
    }
  }

  lemma ChannelTimers(w: World, a: Action)
    requires Enabled(w, a) && Step(w, a).Ok? && (a.Push? || a.Pop? || a.Land?)
    ensures var v := Step(w, a).w;
            && OldOrNext(w, v) && v.loop == w.loop && v.now == w.now
            && forall id {:trigger v.timers[id]} :: id in v.timers && id !in w.timers ==>
                 v.timers[id].proc == Wakes(Self(w))
  {
    match a {
      case Push(ch, d, timeout) => CallTimers(w, ch, C.CallPush(Self(w), d), timeout);
      case Pop(ch, timeout) => CallTimers(w, ch, C.CallPop(Self(w)), timeout);
      case Land => CallTimers(w.(block := w.block[Self(w) := Ready]), w.block[Self(w)].ch, C.Land, 0);
    }
  }

  /** Steps other than the end of a callback leave old timers as they are or take them away. */
  lemma OtherTimers(w: World, a: Action)
    requires Enabled(w, a) && Step(w, a).Ok? && !a.FireDone?
    ensures var v := Step(w, a).w;
            OldOrNext(w, v) && v.now >= w.now && (!a.Fire? && w.loop.Firing? ==> v.loop == w.loop)
    ensures !a.Fire? && !w.loop.Firing? ==> !Step(w, a).w.loop.Firing?
  {
    if a.Push? || a.Pop? || a.Land? { ChannelTimers(w, a); }
  }

  // ----- timers of PHP code ------------------------------------------------------------

  /** The times at which timer `id` fires. */
  ghost function Firings(w: World, steps: seq<Action>, id: int): seq<int>
    requires Schedule(w, steps)
    decreases |steps|
  {
    if steps == [] then []
    else (if steps[0] == Fire(id) then [w.now] else [])
         + (if Step(w, steps[0]).Ok? then Firings(Step(w, steps[0]).w, steps[1..], id) else [])
  }

  /** Timer `id` will not fire again. */
  ghost predicate Spent(w: World, id: int) {
    id < w.nextTimer && (id in w.timers ==> IsFiring(w, id) && !Periodic(w.loop.proc))
  }

  lemma SpentStep(w: World, id: int, a: Action)
    requires Spent(w, id) && Enabled(w, a) && Step(w, a).Ok?
    ensures a != Fire(id) && Spent(Step(w, a).w, id)
  {
    if !a.FireDone? { OtherTimers(w, a); }
  }

  lemma {:induction false} SpentFiresNoMore(w: World, id: int, steps: seq<Action>)
    requires Spent(w, id) && Schedule(w, steps)
    ensures Firings(w, steps, id) == []
    decreases |steps|
  {
    if steps != [] {
      assert steps[0] != Fire(id);
      if Step(w, steps[0]).Ok? {
        SpentStep(w, id, steps[0]);
        SpentFiresNoMore(Step(w, steps[0]).w, id, steps[1..]);
      }
    }
  }

  /** Timer `id`, of PHP code that returns `p`, does not fire before time `t`. */
  ghost predicate NotBefore(w: World, id: int, p: int, t: int) {
    && id < w.nextTimer
    && (id in w.timers ==> w.timers[id].proc == Calls(p))
    && (if IsFiring(w, id) then w.loop.proc == Calls(p) && p != NOMORE && w.now + p >= t
        else id in w.timers ==> w.timers[id].due >= t)
  }

  lemma NotBeforeStep(w: World, id: int, p: int, t: int, a: Action)
    requires NotBefore(w, id, p, t) && Enabled(w, a) && a != Fire(id) && Step(w, a).Ok?
    ensures NotBefore(Step(w, a).w, id, p, t)
  {
    if !a.FireDone? { OtherTimers(w, a); }
  }

  lemma FireStarts(w: World, id: int, p: int, t: int)
    requires NotBefore(w, id, p, t) && Enabled(w, Fire(id)) && Timely(w, Fire(id)) && Step(w, Fire(id)).Ok?
    ensures var v := Step(w, Fire(id)).w;
            w.now >= t && (if p == NOMORE then Spent(v, id) else NotBefore(v, id, p, w.now + p))
  {
  }

  ghost predicate Spaced(times: seq<int>, p: int, t: int) {
    && (times != [] ==> times[0] >= t)
    && (forall i {:trigger times[i]} :: 0 < i < |times| ==> times[i] >= times[i - 1] + p)
    && (p == NOMORE ==> |times| <= 1)
  }

  lemma SpacedCons(now: int, times: seq<int>, p: int, t: int)
    requires now >= t && (if p == NOMORE then times == [] else Spaced(times, p, now + p))
    ensures Spaced([now] + times, p, t)
  {
    var all := [now] + times;
    forall i {:trigger all[i]} | 0 < i < |all| ensures all[i] >= all[i - 1] + p {
      assert all[i] == times[i - 1];
      assert i > 1 ==> all[i - 1] == times[i - 2];
    }
  }

  lemma {:induction false} FiresSpaced(w: World, id: int, p: int, t: int, steps: seq<Action>)
    requires NotBefore(w, id, p, t) && TimelySchedule(w, steps)
    ensures Spaced(Firings(w, steps, id), p, t)
    decreases |steps|
  {
    if steps != [] {
      var a := steps[0];
      if !Step(w, a).Ok? {
        FailedFiring(w, id, p, t, a);
      } else if a == Fire(id) {
        FireStarts(w, id, p, t);
        var v := Step(w, a).w;
        if p == NOMORE { SpentFiresNoMore(v, id, steps[1..]); } else { FiresSpaced(v, id, p, w.now + p, steps[1..]); }
        SpacedCons(w.now, Firings(v, steps[1..], id), p, t);
      } else {
        NotBeforeStep(w, id, p, t, a);
        FiresSpaced(Step(w, a).w, id, p, t, steps[1..]);
        assert [] + Firings(Step(w, a).w, steps[1..], id) == Firings(Step(w, a).w, steps[1..], id);
      }
    }
  }

  lemma FailedFiring(w: World, id: int, p: int, t: int, a: Action)
    requires NotBefore(w, id, p, t) && Enabled(w, a) && Timely(w, a) && !Step(w, a).Ok?
    ensures a == Fire(id) ==> w.now >= t
  {
  }

  /** A timer made to fire after `d` and to return `p` fires, in every run of careful code at
      times the clock allows, not before `d` is over, then each time not before `p` is over
      since it began to fire, and once at most if `p` is NOMORE. */
  lemma TicksAreSpaced(w: World, d: int, p: int, steps: seq<Action>)
    requires Sound(w) && Enabled(w, StartTimer(d, p))
    requires TimelySchedule(Step(w, StartTimer(d, p)).w, steps)
    ensures Spaced(Firings(Step(w, StartTimer(d, p)).w, steps, w.nextTimer), p, w.now + d)
  {
    FiresSpaced(Step(w, StartTimer(d, p)).w, w.nextTimer, p, w.now + d, steps);
  }

  // ----- timers that wake --------------------------------------------------------------

  /** No timer that is still to fire wakes `c` before time `t`. */
  ghost predicate SleepsUntil(w: World, c: int, t: int) {
    forall id {:trigger w.timers[id]} ::
      id in w.timers && w.timers[id].proc == Wakes(c) && !IsFiring(w, id) ==> w.timers[id].due >= t
  }

  lemma SelfIsNotParked(w: World, c: int)
    requires Stack(w) && c in w.sw.parked
    ensures c != Self(w) && c != 0
  {
    NoMain(w);
  }

  lemma FireDoneKeepsSleep(w: World, c: int, t: int)
    requires Ids(w) && SleepsUntil(w, c, t) && Enabled(w, FireDone) && Step(w, FireDone).Ok?
    ensures SleepsUntil(Step(w, FireDone).w, c, t)
  {
  }

  lemma ChannelKeepsSleep(w: World, a: Action, c: int, t: int)
    requires SleepsUntil(w, c, t) && c != Self(w) && Ids(w)
    requires Enabled(w, a) && Step(w, a).Ok? && (a.Push? || a.Pop? || a.Land?)
    ensures SleepsUntil(Step(w, a).w, c, t)
  {
    ChannelTimers(w, a);
  }

  lemma ArmKeepsSleep(w: World, a: Action, c: int, t: int)
    requires SleepsUntil(w, c, t) && c != Self(w) && Ids(w)
    requires Enabled(w, a) && Step(w, a).Ok? && (a.Sleep? || a.StartTimer?)
    ensures SleepsUntil(Step(w, a).w, c, t)
  {
  }

  lemma OtherKeepsSleep(w: World, a: Action, c: int, t: int)
    requires SleepsUntil(w, c, t) && c != Self(w)
    requires Enabled(w, a) && Step(w, a).Ok?
    requires !(a.Push? || a.Pop? || a.Land? || a.FireDone? || a.Sleep? || a.StartTimer?)
    ensures c in Step(w, a).w.sw.parked ==> SleepsUntil(Step(w, a).w, c, t)
  {
  }

  lemma SleepStep(w: World, a: Action, c: int, t: int)
    requires Sound(w) && SleepsUntil(w, c, t) && c in w.sw.parked
    requires Enabled(w, a) && Step(w, a).Ok? && c in Step(w, a).w.sw.parked
    ensures SleepsUntil(Step(w, a).w, c, t)
  {
    SelfIsNotParked(w, c);
    if a.FireDone? { FireDoneKeepsSleep(w, c, t); }
    else if a.Push? || a.Pop? || a.Land? { ChannelKeepsSleep(w, a, c, t); }
    else if a.Sleep? || a.StartTimer? { ArmKeepsSleep(w, a, c, t); }
    else { OtherKeepsSleep(w, a, c, t); }
  }

  /** `c` is suspended from the beginning of the run to its end. */
  ghost predicate SuspendedAlong(w: World, steps: seq<Action>, c: int)
    requires Schedule(w, steps)
    decreases |steps|
  {
    c in w.sw.parked &&
    (steps != [] && Step(w, steps[0]).Ok? ==> SuspendedAlong(Step(w, steps[0]).w, steps[1..], c))
  }

  lemma {:induction false} SleepsOn(w: World, steps: seq<Action>, c: int, t: int)
    requires Sound(w) && SleepsUntil(w, c, t) && TimelySchedule(w, steps) && SuspendedAlong(w, steps, c)
    requires Run(w, steps).Ok?
    ensures var u := Run(w, steps).w; Sound(u) && SleepsUntil(u, c, t) && c in u.sw.parked
    decreases |steps|
  {
    if steps != [] {
      var v := Step(w, steps[0]).w;
      SoundStep(w, steps[0]);
      SleepStep(w, steps[0], c, t);
      SleepsOn(v, steps[1..], c, t);
    }
  }

  lemma WokenByOwn(w: World, x: int, c: int)
    requires Stack(w) && c in w.sw.parked && Enabled(w, Fire(x)) && Step(w, Fire(x)).Ok?
    requires Self(Step(w, Fire(x)).w) == c
    ensures w.timers[x].proc == Wakes(c)
  {
    SelfIsNotParked(w, c);
  }

  /** How long a call asks to wait. */
  function Asked(a: Action): int
    requires a.Sleep? || a.Push? || a.Pop?
  {
    if a.Sleep? then a.delay else a.timeout
  }

  lemma NoneYet(w: World)
    requires Inv(w) && AtUserCode(w)
    ensures forall id {:trigger w.timers[id]} ::
              id in w.timers && w.timers[id].proc == Wakes(Self(w)) ==> IsFiring(w, id)
  {
    NoMain(w);
    forall id {:trigger w.timers[id]} | id in w.timers && w.timers[id].proc == Wakes(Self(w)) ensures IsFiring(w, id) {
      assert !IsFiring(w, id) ==> At(w.block, Self(w), InSleep(id));
    }
  }

  lemma FallsAsleep(w: World, a: Action)
    requires Inv(w) && Enabled(w, a) && (a.Sleep? || TimedWait(w, a)) && Step(w, a).Ok?
    ensures SleepsUntil(Step(w, a).w, Self(w), w.now + Asked(a))
  {
    NoneYet(w);
    if a.Sleep? { SleepArms(w, a.delay); } else { WaitArms(w, a); }
  }

  lemma SleepArms(w: World, d: int)
    requires Ids(w) && Enabled(w, Sleep(d)) && Step(w, Sleep(d)).Ok?
    requires forall id {:trigger w.timers[id]} ::
               id in w.timers && w.timers[id].proc == Wakes(Self(w)) ==> IsFiring(w, id)
    ensures SleepsUntil(Step(w, Sleep(d)).w, Self(w), w.now + d)
  {
  }

  lemma WaitArms(w: World, a: Action)
    requires Base(w) && Ids(w) && Enabled(w, a) && TimedWait(w, a) && Step(w, a).Ok?
    requires forall id {:trigger w.timers[id]} ::
               id in w.timers && w.timers[id].proc == Wakes(Self(w)) ==> IsFiring(w, id)
    ensures SleepsUntil(Step(w, a).w, Self(w), w.now + a.timeout)
  {
    var e := if a.Push? then C.CallPush(Self(w), a.d) else C.CallPop(Self(w));
    ChannelEffect(w.chans[a.ch], e);
    assert Self(w) in C.Next(w.chans[a.ch], e).waiting.Keys;
    assert Step(w, a).w.timers == ArmTimer(w, Wakes(Self(w)), a.timeout).timers;
  }

  /** A coroutine that sleeps, or waits in a channel with a timeout, is not woken by a timer
      before the time it asked for is over: from every state that disciplined code can reach,
      in every run of careful code at times the clock allows. */
  lemma WaitsLast(w: World, a: Action, steps: seq<Action>, x: int)
    requires Reachable(w) && Enabled(w, a) && Careful(w, a) && (a.Sleep? || TimedWait(w, a)) && Step(w, a).Ok?
    requires TimelySchedule(Step(w, a).w, steps) && SuspendedAlong(Step(w, a).w, steps, Self(w))
    requires Run(Step(w, a).w, steps).Ok?
    requires var u := Run(Step(w, a).w, steps).w;
             && Enabled(u, Fire(x)) && Timely(u, Fire(x))
             && Step(u, Fire(x)).Ok? && Self(Step(u, Fire(x)).w) == Self(w)
    ensures Run(Step(w, a).w, steps).w.now >= w.now + Asked(a)
  {
    ReachableIsGood(w);
    ReachableIsSound(w);
    FallsAsleep(w, a);
    SoundStep(w, a);
    SleepsOn(Step(w, a).w, steps, Self(w), w.now + Asked(a));
    WokenByOwn(Run(Step(w, a).w, steps).w, x, Self(w));
  }

  lemma ReachableIsSound(w: World)
    requires Reachable(w)
    ensures Sound(w)
  {
    var v, steps :| Start(v) && DisciplinedSchedule(v, steps) && Run(v, steps) == Ok(w);
    StartIsGood(v);
    SoundRun(v, steps);
  }

  // ----- on time -----------------------------------------------------------------------

  /** Some run that the clock allows has timer `id` fire at time `t`. */
  ghost predicate CanFireAt(w: World, id: int, t: int) {
    exists u :: Leads(w, u, true) && Allowed(u, Fire(id), true) && u.now == t
  }

  lemma FiresWhenDue(w: World, id: int)
    requires Inv(w) && Quiet(w) && Punctual(w) && id in w.timers && !IsFiring(w, id)
    ensures CanFireAt(w, id, Max(w.now, w.timers[id].due))
  {
    var u := ComesRound(w, id, true);
  }

  /** If no event is restless, a sleeper can be woken as soon as the time it asked for is over,
      or at once if that is so already. */
  lemma SleepsOnTime(w: World, d: int)
    requires Reachable(w) && Punctual(w) && Enabled(w, Sleep(d)) && Step(w, Sleep(d)).Ok?
    ensures CanWakeAt(Step(w, Sleep(d)).w, Self(w), Max(w.now, w.now + d))
  {
    ReachableIsGood(w);
    StepKeepsInv(w, Sleep(d));
    SleepSets(w, d);
    SleeperWakesAt(Step(w, Sleep(d)).w, Self(w), w.nextTimer);
  }

  lemma SleeperWakesAt(w: World, c: int, id: int)
    requires Inv(w) && Punctual(w) && At(w.block, c, InSleep(id)) && id in w.timers
    ensures CanWakeAt(w, c, Max(w.now, w.timers[id].due))
  {
    InvCanWake(w, c, id, true);
    var u :| Leads(w, u, true) && Allowed(u, Fire(id), true) && Step(u, Fire(id)).Ok?
             && Self(Step(u, Fire(id)).w) == c && u.now == Max(w.now, w.timers[id].due);
    assert WakesAt(u, id, c, Max(w.now, w.timers[id].due));
  }

  lemma SleepSets(w: World, d: int)
    requires Punctual(w) && Enabled(w, Sleep(d)) && Step(w, Sleep(d)).Ok?
    ensures var v := Step(w, Sleep(d)).w;
            && At(v.block, Self(w), InSleep(w.nextTimer)) && Punctual(v) && v.now == w.now
            && w.nextTimer in v.timers && v.timers[w.nextTimer].due == w.now + d
  {
  }

  /** If no event is restless, a timer can fire as soon as its delay is over, or at once if it
      is not positive. */
  lemma TicksOnTime(w: World, d: int, p: int)
    requires Reachable(w) && Punctual(w) && Enabled(w, StartTimer(d, p)) && (p == NOMORE || p > 0)
    ensures CanFireAt(Step(w, StartTimer(d, p)).w, w.nextTimer, Max(w.now, w.now + d))
  {
    ReachableIsGood(w);
    StepKeepsInv(w, StartTimer(d, p));
    TickSets(w, d, p);
    FiresWhenDue(Step(w, StartTimer(d, p)).w, w.nextTimer);
  }

  lemma TickSets(w: World, d: int, p: int)
    requires Punctual(w) && Ids(w) && Enabled(w, StartTimer(d, p)) && (p == NOMORE || p > 0)
    ensures var v := Step(w, StartTimer(d, p)).w;
            && Quiet(v) && Punctual(v) && v.now == w.now && !IsFiring(v, w.nextTimer)
            && w.nextTimer in v.timers && v.timers[w.nextTimer].due == w.now + d
  {
  }

  /** Timer `id` is, as long as there is one of this number, of PHP code that returns `p`. */
  ghost predicate Returns(w: World, id: int, p: int) {
    && id < w.nextTimer && (id in w.timers ==> w.timers[id].proc == Calls(p))
    && (IsFiring(w, id) ==> w.loop.proc == Calls(p))
  }

  lemma ReturnsStep(w: World, id: int, p: int, a: Action)
    requires Returns(w, id, p) && Enabled(w, a) && Step(w, a).Ok?
    ensures Returns(Step(w, a).w, id, p)
  {
    if !a.FireDone? && !a.Fire? { OtherTimers(w, a); }
  }

  lemma StartReturns(w: World, d: int, p: int)
    requires Reachable(w) && Enabled(w, StartTimer(d, p))
    ensures Returns(Step(w, StartTimer(d, p)).w, w.nextTimer, p)
  {
    ReachableIsGood(w);
  }

  lemma {:induction false} ReturnsRun(w: World, id: int, p: int, steps: seq<Action>)
    requires Returns(w, id, p) && Schedule(w, steps) && Run(w, steps).Ok?
    ensures Returns(Run(w, steps).w, id, p)
    decreases |steps|
  {
    if steps != [] {
      ReturnsStep(w, id, p, steps[0]);
      ReturnsRun(Step(w, steps[0]).w, id, p, steps[1..]);
    }
  }

  lemma {:induction false} ReachedAlong(w: World, steps: seq<Action>)
    requires Reachable(w) && DisciplinedSchedule(w, steps)
    ensures Run(w, steps).Ok? && Reachable(Run(w, steps).w)
    decreases |steps|
  {
    if steps != [] {
      ReachableOn(w, steps[0]);
      ReachedAlong(Step(w, steps[0]).w, steps[1..]);
    }
  }

  /** Whatever has happened since a periodic timer was made: if no event is restless when its
      callback is about to return, it can fire again exactly when its period is over. */
  lemma TicksAgain(w: World, d: int, p: int, steps: seq<Action>)
    requires Reachable(w) && Enabled(w, StartTimer(d, p)) && p != NOMORE
    requires DisciplinedSchedule(Step(w, StartTimer(d, p)).w, steps) && Run(Step(w, StartTimer(d, p)).w, steps).Ok?
    requires var u := Run(Step(w, StartTimer(d, p)).w, steps).w;
             InMain(u) && IsFiring(u, w.nextTimer) && Punctual(u)
    ensures var u := Run(Step(w, StartTimer(d, p)).w, steps).w;
            Step(u, FireDone).Ok? && CanFireAt(Step(u, FireDone).w, w.nextTimer, u.now + p)
  {
    var v := Step(w, StartTimer(d, p)).w;
    ReachableOn(w, StartTimer(d, p));
    StartReturns(w, d, p);
    ReturnsRun(v, w.nextTimer, p, steps);
    ReachedAlong(v, steps);
    FiresAgain(Run(v, steps).w, p);
  }

  lemma FiresAgain(w: World, p: int)
    requires Reachable(w) && Punctual(w) && Enabled(w, FireDone) && w.loop.proc == Calls(p) && p != NOMORE
    ensures Step(w, FireDone).Ok? && CanFireAt(Step(w, FireDone).w, w.loop.id, w.now + p)
  {
    ReachableIsGood(w);
    StepKeepsInv(w, FireDone);
    ReturnSets(w, p);
    FiresWhenDue(Step(w, FireDone).w, w.loop.id);
  }

  lemma ReturnSets(w: World, p: int)
    requires Punctual(w) && Ids(w) && Enabled(w, FireDone) && w.loop.proc == Calls(p) && p != NOMORE
    ensures Step(w, FireDone).Ok?
    ensures var v := Step(w, FireDone).w;
            && Quiet(v) && Punctual(v) && v.now == w.now && !IsFiring(v, w.loop.id) && p > 0
            && w.loop.id in v.timers && v.timers[w.loop.id].due == w.now + p
  {
  }
}

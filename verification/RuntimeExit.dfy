/** When event_wait can return. */
module RuntimeExit {
  import S = SwitchSpec
  import opened Runtime
  import opened RuntimeSteps
  import opened RuntimeRuns
  import opened RuntimeLoop
  import Calls = RuntimeCalls

  // ----- leaving the loop --------------------------------------------------------------

  /** Main has control in the loop, between callbacks, and passes end. */
  ghost predicate Home(w: World, clock: bool) {
    Inv(w) && PassesEnd(w, clock) && InMain(w) && w.loop != Outside && !w.loop.Firing?
  }

  ghost predicate SamePoll(w: World, v: World) {
    w.poll.Open? ==> v.poll.Open? && v.poll.eventNum == w.poll.eventNum
  }

  lemma GoesHome(w: World, clock: bool) returns (v: World)
    requires Inv(w) && PassesEnd(w, clock) && Quiet(w) && w.loop != Outside
    ensures Leads(w, v, clock) && Home(v, clock) && SamePoll(w, v)
    decreases |w.sw.active|, w.loop.Firing?
  {
    if InMain(w) && !w.loop.Firing? {
      v := w;
      LeadsHere(w, clock);
    } else {
      var a := if InMain(w) then FireDone else UserYield;
      StepKeepsInv(w, a);
      QuietAfter(w, a);
      v := GoesHome(Step(w, a).w, clock);
      LeadsOn(w, a, v, clock);
    }
  }

  ghost predicate NonePeriodic(w: World) {
    forall id {:trigger w.timers[id]} :: id in w.timers ==> !Periodic(w.timers[id].proc)
  }

  lemma FewerTimers(m: map<int, Timer>, n: map<int, Timer>, id: int)
    requires n.Keys <= m.Keys - {id} && id in m
    ensures |n| < |m|
  {
    SubsetSize(n.Keys, m.Keys - {id});
  }

  /** The callback of an event that is not periodic cancels all that are. */
  lemma CancelsPeriodic(w: World, clock: bool) returns (v: World)
    requires Inv(w) && InMain(w) && w.loop.Firing? && w.loop.proc.Calls? && !Periodic(w.loop.proc)
    ensures Leads(w, v, clock) && Inv(v) && InMain(v) && v.loop == w.loop && SamePoll(w, v) && NonePeriodic(v)
    decreases |w.timers|
  {
    if NonePeriodic(w) {
      v := w;
      LeadsHere(w, clock);
    } else {
      var p :| p in w.timers && Periodic(w.timers[p].proc);
      StepKeepsInv(w, CancelTimer(p));
      FewerTimers(w.timers, w.timers - {p}, p);
      v := CancelsPeriodic(Step(w, CancelTimer(p)).w, clock);
      LeadsOn(w, CancelTimer(p), v, clock);
    }
  }

  lemma ArmsOneShot(w: World, clock: bool) returns (v: World)
    requires Inv(w) && PassesEnd(w, clock) && InMain(w) && w.loop.Firing? && w.loop.proc.Calls?
    ensures Leads(w, v, clock) && Inv(v) && PassesEnd(v, clock) && InMain(v) && v.loop == w.loop && v.poll == w.poll
    ensures v.timers == w.timers[w.nextTimer := Timer(Calls(NOMORE), w.now)] && v.nextTimer == w.nextTimer + 1
  {
    StepKeepsInv(w, StartTimer(0, NOMORE));
    v := Step(w, StartTimer(0, NOMORE)).w;
    LeadsHere(v, clock);
    LeadsOn(w, StartTimer(0, NOMORE), v, clock);
  }

  /** An event with PHP code begins its callback. */
  lemma Begins(w: World, t: int, clock: bool) returns (v: World)
    requires Inv(w) && PassesEnd(w, clock) && Allowed(w, Fire(t), clock) && w.timers[t].proc.Calls?
    ensures Step(w, Fire(t)) == Ok(v) && Inv(v) && PassesEnd(v, clock) && InMain(v)
    ensures v == w.(loop := Firing(w.loop.maxId, t, w.timers[t].proc))
  {
    StepKeepsInv(w, Fire(t));
    v := Step(w, Fire(t)).w;
  }

  /** A callback returns. */
  lemma Finishes(w: World, clock: bool) returns (v: World)
    requires Inv(w) && PassesEnd(w, clock) && InMain(w) && w.loop.Firing?
    ensures Allowed(w, FireDone, clock) && Step(w, FireDone) == Ok(v) && Home(v, clock)
    ensures v == w.(loop := Passing(w.loop.maxId), timers := AfterCallback(w))
  {
    StepKeepsInv(w, FireDone);
    v := Step(w, FireDone).w;
  }

  /** The callback of timer `p` makes a timer that fires once. */
  lemma MakesOneShot(w: World, p: int, clock: bool) returns (v: World)
    requires Inv(w) && PassesEnd(w, clock) && Allowed(w, Fire(p), clock) && Periodic(w.timers[p].proc)
    ensures Leads(w, v, clock) && Home(v, clock) && SamePoll(w, v)
    ensures w.nextTimer in v.timers && v.timers[w.nextTimer].proc == Calls(NOMORE) && w.nextTimer < v.nextTimer
  {
    var w1 := Begins(w, p, clock);
    var w2 := ArmsOneShot(w1, clock);
    v := Finishes(w2, clock);
    LeadsTo(w1, w2, FireDone, clock);
    LeadsOn(w, Fire(p), v, clock);
  }

  lemma OneShotCancels(w: World, n: int, clock: bool) returns (v: World)
    requires Inv(w) && PassesEnd(w, clock) && Allowed(w, Fire(n), clock) && w.timers[n].proc == Calls(NOMORE)
    ensures Leads(w, v, clock) && Home(v, clock) && SamePoll(w, v) && NonePeriodic(v)
  {
    var w1 := Begins(w, n, clock);
    var w2 := CancelsPeriodic(w1, clock);
    v := Finishes(w2, clock);
    LeadsOn(w, Fire(n), w2, clock);
    LeadsTo(w, w2, FireDone, clock);
  }

  lemma RidsPeriodic(w: World, clock: bool) returns (v: World)
    requires Home(w, clock)
    ensures Leads(w, v, clock) && Home(v, clock) && SamePoll(w, v) && NonePeriodic(v)
  {
    if NonePeriodic(w) {
      v := w;
      LeadsHere(w, clock);
    } else {
      var p :| p in w.timers && Periodic(w.timers[p].proc);
      var w1 := ComesRound(w, p, clock);
      var w2 := MakesOneShot(w1, p, clock);
      var w3 := ComesRound(w2, w1.nextTimer, clock);
      v := OneShotCancels(w3, w1.nextTimer, clock);
      LeadsThrough(w, w1, w2, clock);
      LeadsThrough(w, w2, w3, clock);
      LeadsThrough(w, w3, v, clock);
    }
  }

  lemma FiredKeepsTimers(w: World, t: int)
    requires Enabled(w, Fire(t)) && Expected(w, Fire(t)) && Step(w, Fire(t)).Ok?
    ensures var v := Step(w, Fire(t)).w;
            && v.loop == Firing(w.loop.maxId, t, w.timers[t].proc) && v.timers == w.timers && v.poll == w.poll
            && (InMain(v) || (|v.sw.active| == 1 && InCoroutine(v)))
  {
  }

  lemma YieldsBack(w: World, clock: bool) returns (v: World)
    requires Inv(w) && InCoroutine(w) && |w.sw.active| == 1
    ensures Leads(w, v, clock) && Inv(v) && InMain(v) && v.loop == w.loop && v.timers == w.timers && v.poll == w.poll
  {
    StepKeepsInv(w, UserYield);
    v := Step(w, UserYield).w;
    LeadsHere(v, clock);
    LeadsOn(w, UserYield, v, clock);
  }

  /** A callback that does nothing but, if it is a coroutine's, yield. */
  lemma FiresIdly(w: World, t: int, clock: bool) returns (v: World)
    requires Inv(w) && Allowed(w, Fire(t), clock)
    ensures Leads(w, v, clock) && Inv(v) && InMain(v) && v.loop == Firing(w.loop.maxId, t, w.timers[t].proc)
    ensures v.timers == w.timers && v.poll == w.poll
  {
    StepKeepsInv(w, Fire(t));
    InvExpected(w, Fire(t));
    FiredKeepsTimers(w, t);
    v := Step(w, Fire(t)).w;
    if InMain(v) { LeadsHere(v, clock); } else { v := YieldsBack(v, clock); }
    LeadsOn(w, Fire(t), v, clock);
  }

  /** One event fires, its callback does nothing, and it is gone. */
  lemma UsesUp(w: World, t: int, clock: bool) returns (v: World)
    requires Inv(w) && Allowed(w, Fire(t), clock) && NonePeriodic(w)
    ensures Leads(w, v, clock) && Home(v, clock) && SamePoll(w, v) && v.timers == w.timers - {t} && NonePeriodic(v)
  {
    var u := FiresIdly(w, t, clock);
    v := Finishes(u, clock);
    LeadsTo(w, u, FireDone, clock);
  }

  lemma LeavesEmpty(w: World, clock: bool) returns (v: World)
    requires Home(w, clock) && w.timers == map[] && w.poll.Open? && w.poll.eventNum == 0
    ensures Leads(w, v, clock) && v.loop == Outside
    decreases if w.loop.Waiting? then 2 else if w.loop.Dispatching? then 1 else 0
  {
    if w.loop.Passing? {
      v := Step(w, PassDone).w;
      LeadsHere(v, clock);
      LeadsOn(w, PassDone, v, clock);
    } else {
      if w.loop.Dispatching? && w.loop.rest != [] {
        var c := w.loop.rest[0];
        assert At(w.block, c, InPoll(w.block[c].fd));
      }
      var a := if w.loop.Waiting? then Reported([]) else DispatchDone;
      StepKeepsInv(w, a);
      v := LeavesEmpty(Step(w, a).w, clock);
      LeadsOn(w, a, v, clock);
    }
  }

  lemma StillNone(w: World, v: World, t: int)
    requires Kept(w, v, t) && NonePeriodic(w)
    ensures NonePeriodic(v) && v.timers.Keys <= w.timers.Keys
  {
    forall id {:trigger v.timers[id]} | id in v.timers ensures !Periodic(v.timers[id].proc) {
      assert w.timers[id].proc == v.timers[id].proc;
    }
    forall id | id in v.timers.Keys ensures id in w.timers.Keys {
      assert id in v.timers;
    }
  }

  lemma UsesOne(w: World, clock: bool) returns (v: World)
    requires Home(w, clock) && NonePeriodic(w) && w.timers != map[]
    ensures Leads(w, v, clock) && Home(v, clock) && SamePoll(w, v) && NonePeriodic(v) && |v.timers| < |w.timers|
  {
    var t := Member(w.timers.Keys);
    var u := ComesRound(w, t, clock);
    StillNone(w, u, t);
    v := UsesUp(u, t, clock);
    FewerTimers(w.timers, v.timers, t);
    LeadsThrough(w, u, v, clock);
  }

  lemma Leaves(w: World, clock: bool) returns (v: World)
    requires Home(w, clock) && NonePeriodic(w) && w.poll.Open? && w.poll.eventNum == 0
    ensures Leads(w, v, clock) && v.loop == Outside
    decreases |w.timers|
  {
    if w.timers == map[] {
      v := LeavesEmpty(w, clock);
    } else {
      var u := UsesOne(w, clock);
      v := Leaves(u, clock);
      LeadsThrough(w, u, v, clock);
    }
  }

  /** The loop can be left: some disciplined schedule, if `clock` one that the clock allows,
      ends outside it. */
  ghost predicate CanLeave(w: World, clock: bool) {
    exists v :: Leads(w, v, clock) && v.loop == Outside
  }

  lemma UncountedLeaves(w: World, clock: bool)
    requires Inv(w) && PassesEnd(w, clock) && w.loop != Outside && w.poll.eventNum == 0
    ensures CanLeave(w, clock)
  {
    var u := Settles(w, clock);
    var u1 := GoesHome(u, clock);
    var u2 := RidsPeriodic(u1, clock);
    var v := Leaves(u2, clock);
    LeadsThrough(w, u, u1, clock);
    LeadsThrough(w, u1, u2, clock);
    LeadsThrough(w, u2, v, clock);
  }

  lemma CountedStays(w: World)
    requires Inv(w) && w.loop != Outside && w.poll.eventNum > 0
    ensures forall steps :: Schedule(w, steps) && Run(w, steps).Ok? ==> Run(w, steps).w.loop != Outside
    ensures forall clock :: !CanLeave(w, clock)
  {
    forall steps | Schedule(w, steps) && Run(w, steps).Ok? ensures Run(w, steps).w.loop != Outside {
      OneSocketWaitIsForever(w, steps);
    }
    forall clock, v | Leads(w, v, clock) ensures v.loop != Outside {
      var steps :| KeptSchedule(w, steps, clock) && Run(w, steps) == Ok(v);
      assert Schedule(w, steps);
    }
  }

  /** Inside the loop event_wait can return exactly when nobody has waited for a descriptor
      since the poll was opened; and once somebody has, no schedule of any code leaves the
      loop.  Module RuntimeRestless says when it can return at times the clock allows. */
  lemma LeavesExactlyUncounted(w: World)
    requires Reachable(w) && w.loop != Outside
    ensures w.poll.Open? && (CanLeave(w, false) <==> w.poll.eventNum == 0)
    ensures w.poll.eventNum > 0 ==>
              forall steps :: Schedule(w, steps) && Run(w, steps).Ok? ==> Run(w, steps).w.loop != Outside
  {
    ReachableIsGood(w);
    if w.poll.eventNum == 0 {
      UncountedLeaves(w, false);
    } else {
      CountedStays(w);
    }
  }

  /** The same, read off the steps that led there: it can return exactly when wait_event has
      not been called since the poll was last closed. */
  lemma LeavesExactlyUnwaited(w: World, steps: seq<Action>)
    requires Start(w) && DisciplinedSchedule(w, steps) && Run(w, steps).Ok? && Run(w, steps).w.loop != Outside
    ensures CanLeave(Run(w, steps).w, false) <==> Calls.WaitsSince(w, steps, 0) == 0
  {
    var v := Run(w, steps).w;
    assert Reachable(v);
    LeavesExactlyUncounted(v);
    Calls.CounterIsCalls(w, steps);
  }

  lemma OneWaits(w: World) returns (v: World)
    requires Start(w)
    ensures Reachable(v) && InMain(v) && v.loop == Outside && v.poll.Open? && v.poll.eventNum == 1
  {
    assert Run(w, []) == Ok(w);
    ReachableOn(w, Create(0, 0));
    var u := Step(w, Create(0, 0)).w;
    assert u.sw.active == [1];
    ReachableOn(u, WaitEvent(3));
    v := Step(u, WaitEvent(3)).w;
    assert v.sw.active == [];
  }

  /** For instance: a coroutine waits for a descriptor, and main enters the loop. */
  lemma SocketTraps(w: World) returns (v: World)
    requires Start(w)
    ensures Reachable(v) && v.loop != Outside && v.poll.Open? && v.poll.eventNum > 0
    ensures !CanLeave(v, false) && !CanLeave(v, true)
  {
    var u := OneWaits(w);
    ReachableOn(u, EnterLoop);
    v := Step(u, EnterLoop).w;
    ReachableIsGood(v);
    CountedStays(v);
  }
}

/** What the event loop can always come to: schedules that exist, at times the clock allows if
    the clock is heeded. */
module RuntimeLoop {
  import S = SwitchSpec
  import C = ChannelSpec
  import opened Runtime
  import opened RuntimeBase
  import opened RuntimeSteps
  import opened RuntimeRuns

  /** A disciplined schedule; if `clock`, one that the clock allows: events fire when they are
      due, newest first, and a pass ends when none is due. */
  ghost predicate KeptSchedule(w: World, steps: seq<Action>, clock: bool)
    ensures KeptSchedule(w, steps, clock) ==> DisciplinedSchedule(w, steps)
    decreases |steps|
  {
    steps == [] ||
    (Allowed(w, steps[0], clock) &&
     (Step(w, steps[0]).Ok? ==> KeptSchedule(Step(w, steps[0]).w, steps[1..], clock)))
  }

  ghost predicate Leads(w: World, v: World, clock: bool) {
    exists steps :: KeptSchedule(w, steps, clock) && Run(w, steps) == Ok(v)
  }

  predicate Allowed(w: World, a: Action, clock: bool) {
    Enabled(w, a) && Disciplined(w, a) && (clock ==> Timely(w, a))
  }

  /** If the clock is heeded, no event keeps passes from ending. */
  ghost predicate PassesEnd(w: World, clock: bool) {
    clock ==> Punctual(w)
  }

  lemma LeadsHere(w: World, clock: bool)
    ensures Leads(w, w, clock)
  {
    assert KeptSchedule(w, [], clock) && Run(w, []) == Ok(w);
  }

  lemma LeadsOn(w: World, a: Action, v: World, clock: bool)
    requires Allowed(w, a, clock) && Step(w, a).Ok? && Leads(Step(w, a).w, v, clock)
    ensures Leads(w, v, clock)
  {
    var steps :| KeptSchedule(Step(w, a).w, steps, clock) && Run(Step(w, a).w, steps) == Ok(v);
    var all := [a] + steps;
    assert all[0] == a && all[1..] == steps;
    assert KeptSchedule(w, all, clock) && Run(w, all) == Ok(v);
  }

  lemma {:induction false} RunOn(w: World, a: seq<Action>, b: seq<Action>, clock: bool)
    requires KeptSchedule(w, a, clock) && Run(w, a).Ok? && KeptSchedule(Run(w, a).w, b, clock)
    ensures KeptSchedule(w, a + b, clock) && Run(w, a + b) == Run(Run(w, a).w, b)
    decreases |a|
  {
    if a == [] {
      assert a + b == b;
    } else {
      assert (a + b)[0] == a[0] && (a + b)[1..] == a[1..] + b;
      RunOn(Step(w, a[0]).w, a[1..], b, clock);
    }
  }

  lemma LeadsThrough(u: World, v: World, w: World, clock: bool)
    requires Leads(u, v, clock) && Leads(v, w, clock)
    ensures Leads(u, w, clock)
  {
    var a :| KeptSchedule(u, a, clock) && Run(u, a) == Ok(v);
    var b :| KeptSchedule(v, b, clock) && Run(v, b) == Ok(w);
    RunOn(u, a, b, clock);
    assert KeptSchedule(u, a + b, clock) && Run(u, a + b) == Ok(w);
  }

  lemma LeadsTo(w: World, v: World, a: Action, clock: bool)
    requires Leads(w, v, clock) && Allowed(v, a, clock) && Step(v, a).Ok?
    ensures Leads(w, Step(v, a).w, clock)
  {
    LeadsHere(Step(v, a).w, clock);
    LeadsOn(v, a, Step(v, a).w, clock);
    LeadsThrough(w, v, Step(v, a).w, clock);
  }

  // ----- idling ------------------------------------------------------------------------

  /** Steps in which PHP code does nothing but yield and return. */
  predicate Idle(a: Action) {
    a.UserYield? || a.FireDone? || a.EnterLoop? || a == Reported([]) || a.DispatchNext? || a.DispatchDone?
    || a.PassDone? || a.Tick? || a.Fire?
  }

  function Without(w: World, t: int): World {
    w.(timers := w.timers - {t})
  }

  /** The books are in order, with timer `t` or without it, and it is still to fire. */
  ghost predicate Calm(w: World, t: int) {
    (Inv(w) || Inv(Without(w, t))) && Quiet(w) && t in w.timers && t < w.nextTimer && !IsFiring(w, t)
  }

  /** What idling leaves as it was. */
  ghost predicate Kept(w: World, v: World, t: int) {
    && (Inv(w) ==> Inv(v)) && (Inv(Without(w, t)) ==> Inv(Without(v, t)))
    && t in w.timers && t in v.timers && v.timers[t] == w.timers[t] && v.nextTimer == w.nextTimer
    && (forall id {:trigger id in v.timers} :: id in v.timers ==>
          id in w.timers && v.timers[id].proc == w.timers[id].proc)
    && (w.poll.Open? ==> v.poll.Open? && v.poll.eventNum == w.poll.eventNum)
    && (forall c, ch {:trigger WaitsIn(v.block, c, ch)} :: WaitsIn(w.block, c, ch) ==>
          WaitsIn(v.block, c, ch) && v.block[c] == w.block[c])
  }

  lemma KeptTwice(u: World, v: World, w: World, t: int)
    requires Kept(u, v, t) && Kept(v, w, t)
    ensures Kept(u, w, t)
  {
    forall c, ch {:trigger WaitsIn(w.block, c, ch)} | WaitsIn(u.block, c, ch)
      ensures WaitsIn(w.block, c, ch) && w.block[c] == u.block[c] {
      assert WaitsIn(v.block, c, ch);
    }
  }

  lemma ResumeCommutes(w: World, c: int, t: int)
    ensures Resume(Without(w, t), c).Ok? ==>
              Resume(w, c).Ok? && Resume(Without(w, t), c).w == Without(Resume(w, c).w, t)
  {
  }

  lemma CallbackCommutes(w: World, t: int)
    requires w.loop.Firing? && w.loop.id != t
    ensures Freed(w) <==> Freed(Without(w, t))
    ensures !Freed(w) ==> AfterCallback(Without(w, t)) == AfterCallback(w) - {t}
  {
  }

  /** Such a step does the same whether or not timer `t` is there. */
  lemma Commutes(w: World, a: Action, t: int)
    requires Enabled(w, a) && Idle(a) && a != Fire(t) && !a.PassDone? && !IsFiring(w, t)
    ensures Enabled(Without(w, t), a)
    ensures Step(Without(w, t), a).Ok? ==> Step(w, a).Ok? && Step(Without(w, t), a).w == Without(Step(w, a).w, t)
  {
    match a {
      case FireDone => CallbackCommutes(w, t);
      case DispatchNext => ResumeCommutes(w.(loop := Dispatching(w.loop.rest[1..])), w.loop.rest[0], t);
      case Fire(id) =>
        var proc := w.timers[id].proc;
        if proc.Wakes? { ResumeCommutes(w.(loop := Firing(w.loop.maxId, id, proc)), proc.cid, t); }
      case _ =>
    }
  }

  /** Idling takes nobody out of a channel and makes no timer. */
  lemma IdleLeaves(w: World, a: Action, t: int)
    requires Enabled(w, a) && Idle(a) && a != Fire(t) && !a.PassDone? && Expected(w, a) && Step(w, a).Ok?
    requires t in w.timers && t < w.nextTimer && !IsFiring(w, t)
    ensures var v := Step(w, a).w;
            && t in v.timers && v.timers[t] == w.timers[t] && v.nextTimer == w.nextTimer && !IsFiring(v, t)
            && (forall id {:trigger id in v.timers} :: id in v.timers ==>
                  id in w.timers && v.timers[id].proc == w.timers[id].proc)
            && (w.poll.Open? ==> v.poll.Open? && v.poll.eventNum == w.poll.eventNum)
  {
  }

  lemma IdleLeavesWaiters(w: World, a: Action)
    requires Enabled(w, a) && Idle(a) && Expected(w, a) && Step(w, a).Ok?
    ensures var v := Step(w, a).w;
            forall c, ch {:trigger WaitsIn(v.block, c, ch)} :: WaitsIn(w.block, c, ch) ==>
              WaitsIn(v.block, c, ch) && v.block[c] == w.block[c]
  {
    var v := Step(w, a).w;
    forall c, ch {:trigger WaitsIn(v.block, c, ch)} | WaitsIn(w.block, c, ch)
      ensures WaitsIn(v.block, c, ch) && v.block[c] == w.block[c] {
      IdleLeavesOne(w, a, c, ch);
    }
  }

  lemma IdleLeavesOne(w: World, a: Action, c: int, ch: int)
    requires Enabled(w, a) && Idle(a) && Expected(w, a) && Step(w, a).Ok? && WaitsIn(w.block, c, ch)
    ensures c in Step(w, a).w.block && Step(w, a).w.block[c] == w.block[c]
  {
  }

  lemma YieldIsQuiet(w: World)
    requires Stack(w) && Enabled(w, UserYield)
    ensures Step(w, UserYield).Ok? && Quiet(Step(w, UserYield).w)
  {
    StackSuspend(w.(yielded := w.yielded + {Self(w)}), InUserYield);
  }

  lemma QuietAfter(w: World, a: Action)
    requires Stack(w) && Quiet(w) && Enabled(w, a) && Idle(a) && Expected(w, a) && Step(w, a).Ok?
    ensures Quiet(Step(w, a).w)
  {
    if a.UserYield? { YieldIsQuiet(w); } else { ResumedIsQuiet(w, a); }
  }

  lemma ResumedIsQuiet(w: World, a: Action)
    requires Quiet(w) && Enabled(w, a) && Idle(a) && !a.UserYield? && Expected(w, a) && Step(w, a).Ok?
    ensures Quiet(Step(w, a).w)
  {
  }

  lemma WaitingKeepsInv(w: World)
    requires Inv(w) && w.loop.Passing?
    ensures Inv(w.(loop := Waiting))
  {
    var v := w.(loop := Waiting);
    BaseKept(w, v);
    SleepersKept(w, v);
    PollsKept(w, v);
  }

  lemma PassIdles(w: World, t: int)
    requires Calm(w, t) && Enabled(w, PassDone)
    ensures Step(w, PassDone).Ok? && Step(w, PassDone).w == w.(loop := Waiting)
    ensures Calm(Step(w, PassDone).w, t) && Kept(w, Step(w, PassDone).w, t)
  {
    var v := w.(loop := Waiting);
    assert Without(v, t) == Without(w, t).(loop := Waiting);
    if Inv(w) { WaitingKeepsInv(w); }
    if Inv(Without(w, t)) { WaitingKeepsInv(Without(w, t)); }
  }

  lemma StepWithout(w: World, a: Action, t: int)
    requires Inv(Without(w, t)) && !IsFiring(w, t)
    requires Enabled(w, a) && Idle(a) && a != Fire(t) && !a.PassDone?
    ensures Step(w, a).Ok? && Expected(w, a) && Inv(Without(Step(w, a).w, t))
  {
    Commutes(w, a, t);
    StepKeepsInv(Without(w, t), a);
    InvExpected(Without(w, t), a);
  }

  lemma SideBySide(w: World, a: Action, t: int)
    requires Calm(w, t) && Enabled(w, a) && Idle(a) && a != Fire(t) && !a.PassDone?
    ensures Step(w, a).Ok? && Expected(w, a)
    ensures Inv(w) ==> Inv(Step(w, a).w)
    ensures Inv(Without(w, t)) ==> Inv(Without(Step(w, a).w, t))
  {
    if Inv(Without(w, t)) {
      StepWithout(w, a, t);
    }
    if Inv(w) {
      StepKeepsInv(w, a);
      InvExpected(w, a);
    }
  }

  lemma CalmHolds(w: World, t: int)
    requires Calm(w, t)
    ensures Stack(w) && (w.loop != Outside ==> w.poll.Open?)
  {
  }

  lemma IdleStep(w: World, a: Action, t: int)
    requires Calm(w, t) && Enabled(w, a) && Idle(a) && a != Fire(t)
    ensures Step(w, a).Ok? && Calm(Step(w, a).w, t) && Kept(w, Step(w, a).w, t)
  {
    if a.PassDone? {
      PassIdles(w, t);
    } else {
      SideBySide(w, a, t);
      IdleLeaves(w, a, t);
      IdleLeavesWaiters(w, a);
      CalmHolds(w, t);
      QuietAfter(w, a);
    }
  }

  // ----- every timer comes round -------------------------------------------------------

  /** The due events that the pass still has to fire. */
  function Covered(w: World): set<int> {
    match w.loop
    case Passing(maxId) => set id | id in w.timers.Keys && id <= maxId && w.timers[id].due <= w.now
    case Firing(maxId, x, _) => set id | id in w.timers.Keys && id <= maxId && w.timers[id].due <= w.now && id != x
    case _ => {}
  }

  function Left(w: World, clock: bool): nat {
    match w.loop
    case Passing(_) => if clock then 2 * |Covered(w)| + 1 else 1
    case Firing(_, _, _) => if clock then 2 * |Covered(w)| + 2 else 2
    case Dispatching(rest) => |rest|
    case _ => 0
  }

  /** How far the loop is from a pass that covers timer `t`, due. */
  function Distance(w: World, t: int): nat {
    match w.loop
    case Outside => 6
    case Dispatching(_) => if Due(w, t) then 1 else 5
    case Passing(maxId) => if Due(w, t) && t <= maxId then 0 else 4
    case Firing(maxId, _, _) => if Due(w, t) && t <= maxId then 0 else 4
    case Waiting => if Due(w, t) then 2 else 3
  }

  ghost predicate Nearer(v: World, w: World, t: int, clock: bool) {
    || Distance(v, t) < Distance(w, t)
    || (Distance(v, t) == Distance(w, t) && Left(v, clock) < Left(w, clock))
    || (Distance(v, t) == Distance(w, t) && Left(v, clock) == Left(w, clock) && |v.sw.active| < |w.sw.active|)
  }

  lemma Member(s: set<int>) returns (x: int)
    requires s != {}
    ensures x in s
  {
    assert (forall y :: y !in s) ==> s == {};
    x :| x in s;
  }

  lemma {:induction false} Newest(s: set<int>) returns (m: int)
    requires s != {}
    ensures m in s && forall x :: x in s ==> x <= m
    decreases |s|
  {
    var x := Member(s);
    if s - {x} == {} {
      assert forall y :: y in s ==> y == x || y in s - {x};
      m := x;
    } else {
      var n := Newest(s - {x});
      m := if n > x then n else x;
      assert forall y :: y in s ==> y == x || y in s - {x};
    }
  }

  lemma {:induction false} SubsetSize(a: set<int>, b: set<int>)
    requires a <= b
    ensures |a| <= |b|
    decreases |a|
  {
    if a != {} {
      var x := Member(a);
      SubsetSize(a - {x}, b - {x});
    }
  }

  lemma FireIsNearer(w: World, h: int, t: int)
    requires Enabled(w, Fire(h)) && h in Covered(w) && Step(w, Fire(h)).Ok?
    ensures Nearer(Step(w, Fire(h)).w, w, t, true)
  {
    var v := Step(w, Fire(h)).w;
    assert Covered(v) == Covered(w) - {h};
  }

  lemma FireDoneIsNearer(w: World, t: int, clock: bool)
    requires Enabled(w, FireDone) && t in w.timers && !IsFiring(w, t) && (clock ==> Lasting(w.loop.proc))
    ensures Step(w, FireDone).Ok? ==> Nearer(Step(w, FireDone).w, w, t, clock)
  {
    if clock && !Freed(w) {
      var v := Step(w, FireDone).w;
      assert Covered(v) <= Covered(w);
      SubsetSize(Covered(v), Covered(w));
    }
  }

  /** What to do next, so that timer `t` comes nearer to firing. */
  lemma NextIdle(w: World, t: int, clock: bool) returns (a: Action)
    requires S.StackWf(w.sw) && Quiet(w) && t in w.timers && t < w.nextTimer && !IsFiring(w, t)
    requires (w.loop != Outside ==> w.poll.Open?) && (clock && w.loop.Firing? ==> Lasting(w.loop.proc))
    requires !Allowed(w, Fire(t), clock)
    ensures Allowed(w, a, clock) && Idle(a) && a != Fire(t)
    ensures a.Tick? ==> w.now + a.ms == w.timers[t].due
    ensures Step(w, a).Ok? && (a.PassDone? ==> Step(w, a).w.loop == Waiting) ==> Nearer(Step(w, a).w, w, t, clock)
  {
    if !InMain(w) {
      a := UserYield;
    } else if w.loop.Passing? {
      a := NextInPass(w, t, clock);
    } else if w.loop.Firing? {
      a := FireDone;
      FireDoneIsNearer(w, t, clock);
    } else {
      a := NextOutsidePass(w, t, clock);
    }
  }

  lemma NextOutsidePass(w: World, t: int, clock: bool) returns (a: Action)
    requires InMain(w) && t in w.timers && t < w.nextTimer && !w.loop.Passing? && !w.loop.Firing?
    requires w.loop != Outside ==> w.poll.Open?
    ensures Allowed(w, a, clock) && Idle(a) && !a.Fire? && !a.PassDone?
    ensures a.Tick? ==> w.now + a.ms == w.timers[t].due
    ensures Step(w, a).Ok? ==> Nearer(Step(w, a).w, w, t, clock)
  {
    if w.loop == Outside { a := EnterLoop; }
    else if w.loop.Dispatching? { a := if w.loop.rest == [] then DispatchDone else DispatchNext; }
    else { a := if Due(w, t) then Reported([]) else Tick(w.timers[t].due - w.now); }
  }

  lemma NextInPass(w: World, t: int, clock: bool) returns (a: Action)
    requires InMain(w) && w.loop.Passing? && t in w.timers && t < w.nextTimer && !Allowed(w, Fire(t), clock)
    ensures Allowed(w, a, clock) && Idle(a) && a != Fire(t) && !a.Tick?
    ensures Step(w, a).Ok? && (a.PassDone? ==> Step(w, a).w.loop == Waiting) ==> Nearer(Step(w, a).w, w, t, clock)
  {
    if !clock {
      a := PassDone;
    } else if Covered(w) == {} {
      assert forall i :: i in w.timers && i <= w.loop.maxId ==> i !in Covered(w);
      a := PassDone;
    } else {
      var h := Newest(Covered(w));
      assert forall i :: i in w.timers && h < i <= w.loop.maxId ==> i !in Covered(w);
      a := Fire(h);
      if Step(w, a).Ok? { FireIsNearer(w, h, t); }
    }
  }

  lemma Idles(w: World, t: int, clock: bool) returns (a: Action, u: World)
    requires Calm(w, t) && PassesEnd(w, clock) && !Allowed(w, Fire(t), clock)
    ensures Allowed(w, a, clock) && Step(w, a) == Ok(u) && Nearer(u, w, t, clock)
    ensures Calm(u, t) && PassesEnd(u, clock) && Kept(w, u, t)
    ensures u.now == w.now || (w.now <= u.now == w.timers[t].due)
  {
    CalmHolds(w, t);
    a := NextIdle(w, t, clock);
    IdleStep(w, a, t);
    IdleNow(w, a);
    if a.PassDone? { PassIdles(w, t); }
    u := Step(w, a).w;
    if clock { IdleLasts(w, a, u, t); }
  }

  lemma IdleNow(w: World, a: Action)
    requires Enabled(w, a) && Idle(a) && Step(w, a).Ok?
    ensures Step(w, a).w.now == if a.Tick? then w.now + a.ms else w.now
  {
  }

  function Max(a: int, b: int): int {
    if a < b then b else a
  }

  lemma IdleLasts(w: World, a: Action, u: World, t: int)
    requires Punctual(w) && Enabled(w, a) && Idle(a) && Step(w, a) == Ok(u) && Kept(w, u, t)
    ensures Punctual(u)
  {
    if u.loop.Firing? { FiringFromList(w, a, u); }
    forall id {:trigger u.timers[id]} | id in u.timers ensures Lasting(u.timers[id].proc) {
      assert id in w.timers && u.timers[id].proc == w.timers[id].proc;
    }
  }

  lemma FiringFromList(w: World, a: Action, u: World)
    requires Enabled(w, a) && Idle(a) && Step(w, a) == Ok(u) && u.loop.Firing?
    ensures (w.loop.Firing? && u.loop.proc == w.loop.proc) || (a.Fire? && u.loop.proc == w.timers[a.id].proc)
  {
  }

  /** Wherever the program stands in a disciplined run, if from now on PHP code only yields
      and returns, the event loop comes to fire timer `t`; at a time the clock allows, provided
      that no event in the list keeps passes from ending, and then when it is due, or at once if
      it is overdue. */
  lemma ComesRound(w: World, t: int, clock: bool) returns (v: World)
    requires Calm(w, t) && PassesEnd(w, clock)
    ensures Leads(w, v, clock) && Calm(v, t) && PassesEnd(v, clock) && Kept(w, v, t) && Allowed(v, Fire(t), clock)
    ensures clock ==> v.now == Max(w.now, w.timers[t].due)
    decreases Distance(w, t), Left(w, clock), |w.sw.active|
  {
    if Allowed(w, Fire(t), clock) {
      v := w;
      LeadsHere(w, clock);
    } else {
      var a, u := Idles(w, t, clock);
      v := ComesRound(u, t, clock);
      LeadsOn(w, a, v, clock);
      KeptTwice(w, u, v, t);
    }
  }

  /** Some run that the clock allows has a timer wake `c` at time `t`. */
  ghost predicate CanWakeAt(w: World, c: int, t: int) {
    exists u, x :: Leads(w, u, true) && WakesAt(u, x, c, t)
  }

  predicate WakesAt(w: World, x: int, c: int, t: int) {
    w.now == t && Allowed(w, Fire(x), true) && Step(w, Fire(x)).Ok? && Self(Step(w, Fire(x)).w) == c
  }

  // ----- from any moment ---------------------------------------------------------------

  /** A coroutine that has just been woken inside push or pop first goes on there. */
  lemma Settles(w: World, clock: bool) returns (v: World)
    requires Inv(w)
    ensures Leads(w, v, clock) && Inv(v) && Quiet(v)
    ensures v.timers == w.timers && v.nextTimer == w.nextTimer && v.now == w.now && v.loop == w.loop && v.poll == w.poll
    ensures SameSleeps(w.block, v.block) && (InMain(v) <==> InMain(w))
  {
    if Quiet(w) {
      v := w;
      LeadsHere(w, clock);
    } else {
      assert S.Live(w.sw, S.Top(w.sw));
      InvExpected(w, Land);
      StepKeepsInv(w, Land);
      NoMain(w);
      ChannelMoves(w, Land);
      ChannelEffect(w.chans[w.block[Self(w)].ch], C.Land);
      v := Step(w, Land).w;
      LeadsHere(v, clock);
      LeadsOn(w, Land, v, clock);
    }
  }

  /** At every moment of every disciplined run, whoever sleeps can be woken by its timer:
      nothing else that is going on stands in the way.  The clock allows it if no event in the
      list keeps passes from ending; module RuntimeRestless says exactly when it does. */
  lemma SleeperCanWake(w: World, c: int, id: int, clock: bool)
    requires Reachable(w) && PassesEnd(w, clock) && At(w.block, c, InSleep(id))
    ensures exists v ::
              && Leads(w, v, clock) && Allowed(v, Fire(id), clock)
              && Step(v, Fire(id)).Ok? && Self(Step(v, Fire(id)).w) == c
  {
    ReachableIsGood(w);
    InvCanWake(w, c, id, clock);
  }

  lemma InvCanWake(w: World, c: int, id: int, clock: bool)
    requires Inv(w) && PassesEnd(w, clock) && At(w.block, c, InSleep(id))
    ensures exists v ::
              && Leads(w, v, clock) && Allowed(v, Fire(id), clock)
              && Step(v, Fire(id)).Ok? && Self(Step(v, Fire(id)).w) == c
              && (clock ==> v.now == Max(w.now, w.timers[id].due))
  {
    var u := Settles(w, clock);
    assert At(u.block, c, InSleep(id)) && Armed(u, c, id);
    var v := ComesRound(u, id, clock);
    LeadsThrough(w, u, v, clock);
    FiredRuns(v, c, id);
  }

  lemma FiredRuns(w: World, c: int, id: int)
    requires Inv(w) && Enabled(w, Fire(id)) && w.timers[id].proc == Wakes(c)
    ensures Step(w, Fire(id)).Ok? && Self(Step(w, Fire(id)).w) == c
  {
    StepKeepsInv(w, Fire(id));
  }
}

/** Events whose period is over at once, such as those of `tick(0)`: what comes of the event
    loop when such an event fires before PHP code gets control that could delete it. */
module RuntimeRestless {
  import S = SwitchSpec
  import opened Runtime
  import opened RuntimeSteps
  import opened RuntimeRuns
  import opened RuntimeLoop
  import opened RuntimeExit

  /** The event that a pass up to `maxId` fires next. */
  ghost predicate NewestDue(w: World, maxId: int, id: int) {
    Due(w, id) && id <= maxId && forall i {:trigger w.timers[i]} :: i in w.timers && id < i <= maxId ==> !Due(w, i)
  }

  ghost predicate NoneDue(w: World, maxId: int) {
    forall i {:trigger w.timers[i]} :: i in w.timers && i <= maxId ==> !Due(w, i)
  }

  ghost predicate LastingEvent(w: World, id: int) {
    id in w.timers && Lasting(w.timers[id].proc)
  }

  ghost predicate RestlessEvent(w: World, id: int) {
    id in w.timers && !Lasting(w.timers[id].proc)
  }

  /** No descriptor is waited for, and whenever an event comes to be due, a restless one that
      is newer is due by then. */
  ghost predicate WaitBlocked(w: World) {
    && (w.poll.Open? ==> w.poll.registered == map[])
    && (exists r :: RestlessEvent(w, r))
    && (forall e {:trigger LastingEvent(w, e)} :: LastingEvent(w, e) ==> Outrun(w, e))
  }

  ghost predicate Outrun(w: World, e: int)
    requires e in w.timers
  {
    exists r :: RestlessEvent(w, r) && e < r && (w.timers[r].due <= w.now || w.timers[r].due <= w.timers[e].due)
  }

  ghost predicate PassBlocked(w: World, maxId: int) {
    || (exists id :: NewestDue(w, maxId, id) && RestlessEvent(w, id))
    || (NoneDue(w, maxId) && WaitBlocked(w))
  }

  /** The callback of a restless event runs, and the pass has only restless ones to go on to. */
  ghost predicate CallbackBlocked(w: World) {
    && w.loop.Firing? && !Lasting(w.loop.proc)
    && (forall e {:trigger LastingEvent(w, e)} :: LastingEvent(w, e) && w.loop.id < e <= w.loop.maxId ==> !Due(w, e))
  }

  /** PHP code that could delete the restless events does not get control any more. */
  ghost predicate Blocked(w: World) {
    CallbackBlocked(w) ||
    (InMain(w) &&
     match w.loop
     case Outside => false
     case Waiting => WaitBlocked(w)
     case Dispatching(rest) => rest == [] && PassBlocked(w, w.nextTimer - 1)
     case Passing(maxId) => PassBlocked(w, maxId)
     case Firing(maxId, id, proc) => proc.Wakes? && PassBlocked(Without(w, id), maxId))
  }

  lemma NewestExists(w: World, maxId: int, x: int) returns (id: int)
    requires Due(w, x) && x <= maxId
    ensures NewestDue(w, maxId, id) && x <= id
  {
    var s := set i | i in w.timers.Keys && i <= maxId && w.timers[i].due <= w.now;
    assert x in s;
    id := Newest(s);
    forall i {:trigger w.timers[i]} | i in w.timers && id < i <= maxId ensures !Due(w, i) {
      assert i !in s;
    }
  }

  // ----- blocked for good --------------------------------------------------------------

  /** Within a callback old timers stay as they are or go. */
  lemma CallbackTimers(w: World, a: Action, v: World)
    requires w.loop.Firing? && Allowed(w, a, true) && Step(w, a) == Ok(v) && !a.FireDone?
    ensures v.loop == w.loop && v.now == w.now
    ensures forall e {:trigger v.timers[e]} :: e in v.timers && e < w.nextTimer ==>
              e in w.timers && v.timers[e] == w.timers[e]
  {
    if !a.CancelTimer? {
      CallbacksKeepTimers(w, a);
      assert forall e :: e in v.timers.Keys ==> e in w.timers.Keys || e == w.nextTimer;
    }
  }

  lemma BlockedInCallback(w: World, a: Action, v: World)
    requires Ids(w) && CallbackBlocked(w) && Allowed(w, a, true) && Step(w, a) == Ok(v) && !a.FireDone?
    ensures CallbackBlocked(v)
  {
    CallbackTimers(w, a, v);
    StaysBlocked(w, v);
  }

  lemma StaysBlocked(w: World, v: World)
    requires Ids(w) && CallbackBlocked(w) && v.loop == w.loop && v.now == w.now
    requires forall e {:trigger v.timers[e]} :: e in v.timers && e < w.nextTimer ==>
               e in w.timers && v.timers[e] == w.timers[e]
    ensures CallbackBlocked(v)
  {
    forall e {:trigger LastingEvent(v, e)} | LastingEvent(v, e) && v.loop.id < e <= v.loop.maxId ensures !Due(v, e) {
      assert LastingEvent(w, e);
    }
  }

  /** A restless event has fired: it is due again, and the next to fire is restless. */
  lemma BlockedAfterCallback(w: World, v: World)
    requires Ids(w) && CallbackBlocked(w) && Enabled(w, FireDone) && Step(w, FireDone) == Ok(v)
    ensures Blocked(v)
  {
    var x := w.loop.id;
    assert Due(v, x);
    var id := NewestExists(v, w.loop.maxId, x);
    if id != x {
      assert LastingEvent(v, id) ==> LastingEvent(w, id);
    }
    assert RestlessEvent(v, id);
  }

  lemma FirstIsIn(fds: seq<int>)
    ensures fds != [] ==> fds[0] in fds
  {
  }

  lemma EmptyReport(w: World)
    requires Enabled(w, Reported([]))
    ensures Step(w, Reported([])) == Ok(w.(loop := Dispatching([])))
  {
    assert Step(w, Reported([])).w.loop.rest == [];
  }

  lemma NothingReported(w: World, fds: seq<int>)
    requires WaitBlocked(w) && Enabled(w, Reported(fds))
    ensures fds == [] && Step(w, Reported(fds)) == Ok(w.(loop := Dispatching([])))
  {
    FirstIsIn(fds);
    assert forall fd :: fd in fds ==> fd in w.poll.registered;
    assert forall fd :: fd !in fds;
    EmptyReport(w);
  }

  lemma BlockedWaiting(w: World, a: Action, v: World)
    requires w.loop == Waiting && InMain(w) && WaitBlocked(w) && Ids(w)
    requires Allowed(w, a, true) && Step(w, a) == Ok(v)
    ensures Blocked(v)
  {
    if a.Tick? {
      TickKeepsBlocked(w, v, a.ms);
    } else {
      NothingReported(w, a.fds);
      SameBlocked(w, v);
      WaitedIsPass(v);
    }
  }

  lemma TickKeepsBlocked(w: World, v: World, ms: nat)
    requires WaitBlocked(w) && v == w.(now := w.now + ms)
    ensures WaitBlocked(v)
  {
    var r :| RestlessEvent(w, r);
    assert RestlessEvent(v, r);
    forall e {:trigger LastingEvent(v, e)} | LastingEvent(v, e) ensures Outrun(v, e) {
      assert LastingEvent(w, e);
      var q :| RestlessEvent(w, q) && e < q && (w.timers[q].due <= w.now || w.timers[q].due <= w.timers[e].due);
      assert RestlessEvent(v, q);
    }
  }

  lemma SameBlocked(w: World, v: World)
    requires v.timers == w.timers && v.now == w.now && v.poll == w.poll
    ensures WaitBlocked(w) ==> WaitBlocked(v)
    ensures forall maxId :: PassBlocked(w, maxId) ==> PassBlocked(v, maxId)
  {
    assert forall id :: RestlessEvent(v, id) <==> RestlessEvent(w, id);
    assert forall id {:trigger LastingEvent(v, id)} :: LastingEvent(v, id) <==> LastingEvent(w, id);
    assert forall id {:trigger Outrun(v, id)} :: id in w.timers ==> (Outrun(v, id) <==> Outrun(w, id));
    assert forall maxId, id :: NewestDue(v, maxId, id) <==> NewestDue(w, maxId, id);
    assert forall maxId :: NoneDue(v, maxId) <==> NoneDue(w, maxId);
  }

  lemma WaitedIsPass(w: World)
    requires WaitBlocked(w) && Ids(w)
    ensures PassBlocked(w, w.nextTimer - 1)
  {
    if !NoneDue(w, w.nextTimer - 1) {
      var x :| x in w.timers && Due(w, x);
      var id := NewestExists(w, w.nextTimer - 1, x);
      if LastingEvent(w, id) {
        assert Outrun(w, id);
        var r :| RestlessEvent(w, r) && id < r && (w.timers[r].due <= w.now || w.timers[r].due <= w.timers[id].due);
        assert Due(w, r);
      }
    }
  }

  lemma BlockedPassing(w: World, a: Action, v: World)
    requires w.loop.Passing? && InMain(w) && PassBlocked(w, w.loop.maxId)
    requires Allowed(w, a, true) && Step(w, a) == Ok(v)
    ensures Blocked(v)
  {
    if a.Fire? {
      assert NewestDue(w, w.loop.maxId, a.id) && RestlessEvent(w, a.id);
    } else {
      assert a.PassDone?;
      assert !exists id :: NewestDue(w, w.loop.maxId, id);
      SameBlocked(w, v);
    }
  }

  /** A blocked program stays blocked. */
  lemma BlockedStep(w: World, a: Action, v: World)
    requires Inv(w) && Blocked(w) && Allowed(w, a, true) && Step(w, a) == Ok(v)
    ensures Blocked(v)
  {
    if CallbackBlocked(w) {
      if a.FireDone? { BlockedAfterCallback(w, v); } else { BlockedInCallback(w, a, v); }
    } else if w.loop.Waiting? {
      BlockedWaiting(w, a, v);
    } else if w.loop.Passing? {
      BlockedPassing(w, a, v);
    } else if w.loop.Dispatching? {
      assert a.DispatchDone?;
      SameBlocked(w, v);
    } else {
      assert a.FireDone?;
      SameBlocked(Without(w, w.loop.id), v);
    }
  }

  lemma {:induction false} BlockedRun(w: World, steps: seq<Action>)
    requires Inv(w) && Blocked(w) && KeptSchedule(w, steps, true)
    ensures Run(w, steps).Ok? && Inv(Run(w, steps).w) && Blocked(Run(w, steps).w)
    decreases |steps|
  {
    if steps != [] {
      StepKeepsInv(w, steps[0]);
      BlockedStep(w, steps[0], Step(w, steps[0]).w);
      BlockedRun(Step(w, steps[0]).w, steps[1..]);
    }
  }

  lemma BlockedLeads(w: World, v: World)
    requires Inv(w) && Blocked(w) && Leads(w, v, true)
    ensures Inv(v) && Blocked(v) && v.loop != Outside
  {
    var steps :| KeptSchedule(w, steps, true) && Run(w, steps) == Ok(v);
    BlockedRun(w, steps);
  }

  lemma BlockedFires(w: World, id: int)
    requires Blocked(w) && Allowed(w, Fire(id), true)
    ensures RestlessEvent(w, id)
  {
    assert NewestDue(w, w.loop.maxId, id);
  }

  // ----- otherwise PHP code gets control -----------------------------------------------

  /** PHP code runs, outside the callback of a restless event. */
  predicate Free(w: World) {
    AtUserCode(w) && (w.loop.Firing? ==> Lasting(w.loop.proc))
  }

  /** The pass is about to fire an event that is not restless. */
  ghost predicate Opens(w: World) {
    InMain(w) && w.loop.Passing? && exists id :: NewestDue(w, w.loop.maxId, id) && LastingEvent(w, id)
  }

  ghost predicate AtOpening(w: World) {
    Free(w) || Opens(w) || Punctual(w)
  }

  /** `u` is come to with nobody woken on the way. */
  ghost predicate Goes(w: World, u: World) {
    && Leads(w, u, true) && SameSleeps(w.block, u.block) && SamePoll(w, u)
    && (w.loop != Outside ==> u.loop != Outside)
  }

  lemma GoesHere(w: World)
    ensures Goes(w, w)
  {
    LeadsHere(w, true);
  }

  lemma GoesOn(w: World, a: Action, v: World, u: World)
    requires Allowed(w, a, true) && Step(w, a) == Ok(v) && Goes(v, u)
    requires SameSleeps(w.block, v.block) && SamePoll(w, v) && (w.loop != Outside ==> v.loop != Outside)
    ensures Goes(w, u)
  {
    LeadsOn(w, a, u, true);
  }

  lemma GoesFar(u: World, v: World, w: World)
    requires Goes(u, v) && Goes(v, w)
    ensures Goes(u, w)
  {
    LeadsThrough(u, v, w, true);
  }

  lemma GoLooks(w: World, a: Action)
    requires Enabled(w, a) && Expected(w, a) && Step(w, a).Ok? && (a.PassDone? ==> w.timers != map[])
    requires a.UserYield? || a.FireDone? || a.Reported? || a.DispatchNext? || a.DispatchDone? || a.PassDone? || a.Tick?
    ensures var v := Step(w, a).w; SamePoll(w, v) && (w.loop != Outside ==> v.loop != Outside)
  {
  }

  lemma GoQuiet(w: World, a: Action)
    requires Inv(w) && Quiet(w) && Enabled(w, a) && Expected(w, a) && Step(w, a).Ok?
    requires a.UserYield? || a.FireDone? || a.Reported? || a.DispatchNext? || a.DispatchDone? || a.PassDone? || a.Tick?
    ensures Quiet(Step(w, a).w)
  {
    if !a.Reported? { QuietAfter(w, a); }
  }

  /** A step of the loop, or a yield. */
  lemma OneGo(w: World, a: Action) returns (v: World)
    requires Inv(w) && Quiet(w) && Allowed(w, a, true) && (a.PassDone? ==> w.timers != map[])
    requires a.UserYield? || a.FireDone? || a.Reported? || a.DispatchNext? || a.DispatchDone? || a.PassDone? || a.Tick?
    ensures Step(w, a) == Ok(v) && Goes(w, v) && Inv(v) && Quiet(v)
  {
    StepKeepsInv(w, a);
    InvExpected(w, a);
    NoMain(w);
    StepMoves(w, a);
    GoQuiet(w, a);
    GoLooks(w, a);
    v := Step(w, a).w;
    GoesHere(v);
    GoesOn(w, a, v, v);
  }

  /** A reported coroutine goes on. */
  lemma DispatchFrees(w: World) returns (u: World)
    requires Inv(w) && Enabled(w, DispatchNext)
    ensures Goes(w, u) && Inv(u) && Quiet(u) && Free(u)
  {
    u := OneGo(w, DispatchNext);
    InvExpected(w, DispatchNext);
  }

  lemma ReportFrees(w: World) returns (u: World)
    requires Inv(w) && InMain(w) && w.loop == Waiting && w.poll.Open? && w.poll.registered != map[]
    ensures Goes(w, u) && Inv(u) && Quiet(u) && Free(u)
  {
    var fd := Member(w.poll.registered.Keys);
    assert fd in w.poll.registered;
    var v := OneGo(w, Reported([fd]));
    u := DispatchFrees(v);
    GoesFar(w, v, u);
  }

  lemma ReportsNone(w: World) returns (v: World)
    requires Inv(w) && InMain(w) && w.loop == Waiting
    ensures Goes(w, v) && Inv(v) && v == w.(loop := Dispatching([]))
  {
    v := OneGo(w, Reported([]));
    EmptyReport(w);
  }

  lemma EndsDispatch(w: World) returns (v: World)
    requires Inv(w) && InMain(w) && w.loop == Dispatching([])
    ensures Goes(w, v) && Inv(v) && v == w.(loop := Passing(w.nextTimer - 1))
  {
    v := OneGo(w, DispatchDone);
  }

  lemma BeginsPass(w: World) returns (u: World)
    requires Inv(w) && InMain(w) && w.loop == Waiting
    ensures Goes(w, u) && Inv(u) && u == w.(loop := Passing(w.nextTimer - 1))
  {
    var v := ReportsNone(w);
    u := EndsDispatch(v);
    GoesFar(w, v, u);
  }

  /** Time passes until `e` is due, and the next pass begins. */
  lemma WaitsFor(w: World, e: int) returns (u: World)
    requires Inv(w) && InMain(w) && w.loop == Waiting && e in w.timers
    ensures Goes(w, u) && Inv(u) && InMain(u) && u.timers == w.timers && u.loop == Passing(w.nextTimer - 1)
    ensures Due(u, e) && (w.now == u.now || w.timers[e].due == u.now)
  {
    var ms := if Due(w, e) then 0 else w.timers[e].due - w.now;
    var v := OneGo(w, Tick(ms));
    u := BeginsPass(v);
    GoesFar(w, v, u);
  }

  lemma WaitOpens(w: World) returns (u: World)
    requires Inv(w) && InMain(w) && w.loop == Waiting && !WaitBlocked(w)
    ensures Goes(w, u) && Inv(u) && Quiet(u) && AtOpening(u)
  {
    if w.poll.Open? && w.poll.registered != map[] {
      u := ReportFrees(w);
    } else if !exists r :: RestlessEvent(w, r) {
      u := w;
      GoesHere(w);
      assert forall id {:trigger w.timers[id]} :: id in w.timers ==> !RestlessEvent(w, id);
    } else {
      var e :| LastingEvent(w, e) && !Outrun(w, e);
      u := WaitsFor(w, e);
      NotOutrun(w, u, e);
    }
  }

  lemma NotOutrun(w: World, u: World, e: int)
    requires LastingEvent(w, e) && !Outrun(w, e) && e < w.nextTimer
    requires InMain(u) && u.timers == w.timers && u.loop == Passing(w.nextTimer - 1)
    requires Due(u, e) && (w.now == u.now || w.timers[e].due == u.now)
    ensures Opens(u)
  {
    var m := NewestExists(u, u.loop.maxId, e);
    if RestlessEvent(u, m) {
      assert RestlessEvent(w, m);
    }
    assert LastingEvent(u, m);
  }

  lemma PassOpens(w: World) returns (u: World)
    requires Inv(w) && InMain(w) && w.loop.Passing? && !PassBlocked(w, w.loop.maxId)
    ensures Goes(w, u) && Inv(u) && Quiet(u) && AtOpening(u)
  {
    GoesHere(w);
    if !NoneDue(w, w.loop.maxId) {
      var x :| x in w.timers && x <= w.loop.maxId && Due(w, x);
      var m := NewestExists(w, w.loop.maxId, x);
      assert LastingEvent(w, m);
      u := w;
    } else if Punctual(w) {
      u := w;
    } else {
      var v := OneGo(w, PassDone);
      SameBlocked(v, w);
      u := WaitOpens(v);
      GoesFar(w, v, u);
    }
  }

  // ----- out of a callback -------------------------------------------------------------

  lemma DeletesOne(w: World, p: int) returns (v: World)
    requires Inv(w) && AtUserCode(w) && RestlessEvent(w, p) && !IsFiring(w, p)
    ensures Allowed(w, CancelTimer(p), true) && Step(w, CancelTimer(p)) == Ok(v) && Inv(v) && AtUserCode(v)
    ensures Goes(w, v) && v == w.(timers := w.timers - {p}) && |v.timers| < |w.timers|
  {
    StepKeepsInv(w, CancelTimer(p));
    v := Step(w, CancelTimer(p)).w;
    FewerTimers(w.timers, v.timers, p);
    GoesHere(v);
    GoesOn(w, CancelTimer(p), v, v);
  }

  lemma LastingStay(w: World, v: World, p: int)
    requires RestlessEvent(w, p) && v.timers == w.timers - {p}
    ensures forall id {:trigger LastingEvent(w, id)} :: LastingEvent(w, id) ==>
              LastingEvent(v, id) && v.timers[id] == w.timers[id]
  {
  }

  /** PHP code deletes all restless events but the one that is firing. */
  lemma Deletes(w: World) returns (v: World)
    requires Inv(w) && AtUserCode(w)
    ensures Goes(w, v) && Inv(v) && v.loop == w.loop && v.sw == w.sw && v.block == w.block && v.now == w.now
    ensures forall id {:trigger LastingEvent(w, id)} :: LastingEvent(w, id) ==>
              LastingEvent(v, id) && v.timers[id] == w.timers[id]
    ensures forall id {:trigger RestlessEvent(v, id)} :: RestlessEvent(v, id) ==> IsFiring(w, id)
    decreases |w.timers|
  {
    if exists p :: RestlessEvent(w, p) && !IsFiring(w, p) {
      var p :| RestlessEvent(w, p) && !IsFiring(w, p);
      var u := DeletesOne(w, p);
      v := Deletes(u);
      LastingStay(w, u, p);
      GoesFar(w, u, v);
    } else {
      v := w;
      GoesHere(w);
    }
  }

  lemma YieldsToMain(w: World) returns (v: World)
    requires Inv(w) && Quiet(w)
    ensures Goes(w, v) && Inv(v) && InMain(v) && v.loop == w.loop && v.timers == w.timers && v.now == w.now
    decreases |w.sw.active|
  {
    if InMain(w) {
      v := w;
      GoesHere(w);
    } else {
      var u := OneGo(w, UserYield);
      v := YieldsToMain(u);
      GoesFar(w, u, v);
    }
  }

  /** The callback of a restless event deletes the others; then the pass goes on to an event
      that is not restless. */
  lemma CallbackOpens(w: World, e: int) returns (u: World)
    requires Inv(w) && AtUserCode(w) && w.loop.Firing? && !Lasting(w.loop.proc)
    requires LastingEvent(w, e) && w.loop.id < e <= w.loop.maxId && Due(w, e)
    ensures Goes(w, u) && Inv(u) && Quiet(u) && AtOpening(u)
  {
    var w1 := Deletes(w);
    var w2 := YieldsToMain(w1);
    assert LastingEvent(w1, e);
    assert forall id {:trigger RestlessEvent(w2, id)} :: RestlessEvent(w2, id) ==> RestlessEvent(w1, id);
    u := ReturnOpens(w2, e);
    GoesFar(w, w1, w2);
    GoesFar(w, w2, u);
  }

  lemma ReturnOpens(w: World, e: int) returns (u: World)
    requires Inv(w) && InMain(w) && w.loop.Firing?
    requires LastingEvent(w, e) && w.loop.id < e <= w.loop.maxId && Due(w, e)
    requires forall id {:trigger RestlessEvent(w, id)} :: RestlessEvent(w, id) ==> IsFiring(w, id)
    ensures Goes(w, u) && Inv(u) && Quiet(u) && AtOpening(u)
  {
    u := OneGo(w, FireDone);
    var m := NewestExists(u, u.loop.maxId, e);
    assert RestlessEvent(u, m) ==> RestlessEvent(w, m);
    assert LastingEvent(u, m);
  }

  lemma FiringOpens(w: World) returns (u: World)
    requires Inv(w) && Quiet(w) && w.loop.Firing? && !Blocked(w)
    ensures Goes(w, u) && Inv(u) && Quiet(u) && AtOpening(u)
  {
    if AtUserCode(w) && Lasting(w.loop.proc) {
      u := w;
      GoesHere(w);
    } else if AtUserCode(w) {
      var e :| LastingEvent(w, e) && w.loop.id < e <= w.loop.maxId && Due(w, e);
      u := CallbackOpens(w, e);
    } else {
      var v := OneGo(w, FireDone);
      SameBlocked(v, Without(w, w.loop.id));
      u := PassOpens(v);
      GoesFar(w, v, u);
    }
  }

  lemma QuietOpens(w: World) returns (u: World)
    requires Inv(w) && Quiet(w) && !Blocked(w)
    ensures Goes(w, u) && Inv(u) && Quiet(u) && AtOpening(u)
  {
    if w.loop.Firing? {
      u := FiringOpens(w);
    } else if AtUserCode(w) {
      u := w;
      GoesHere(w);
    } else if w.loop.Waiting? {
      u := WaitOpens(w);
    } else if w.loop.Passing? {
      u := PassOpens(w);
    } else if w.loop.rest != [] {
      u := DispatchFrees(w);
    } else {
      var v := OneGo(w, DispatchDone);
      SameBlocked(v, w);
      u := PassOpens(v);
      GoesFar(w, v, u);
    }
  }

  lemma BlockedLooksAt(w: World, v: World)
    requires v.timers == w.timers && v.nextTimer == w.nextTimer && v.now == w.now
    requires v.loop == w.loop && v.poll == w.poll
    requires InMain(v) <==> InMain(w)
    ensures Blocked(v) ==> Blocked(w)
  {
    SameBlocked(v, w);
    if w.loop.Firing? { SameBlocked(Without(v, w.loop.id), Without(w, w.loop.id)); }
    assert forall e {:trigger LastingEvent(w, e)} :: LastingEvent(w, e) ==> LastingEvent(v, e);
  }

  /** Wherever a disciplined run that is not blocked stands, it can come to a place where PHP
      code is about to get control, or no event is restless. */
  lemma FindsOpening(w: World) returns (u: World)
    requires Inv(w) && !Blocked(w)
    ensures Goes(w, u) && Inv(u) && Quiet(u) && AtOpening(u)
  {
    var v := SettlesOpen(w);
    u := QuietOpens(v);
    GoesFar(w, v, u);
  }

  lemma SettlesOpen(w: World) returns (v: World)
    requires Inv(w) && !Blocked(w)
    ensures Goes(w, v) && Inv(v) && Quiet(v) && !Blocked(v)
  {
    v := Settles(w, true);
    BlockedLooksAt(w, v);
  }

  // ----- exactly -----------------------------------------------------------------------

  lemma OpeningFires(w: World) returns (id: int, v: World)
    requires Inv(w) && Opens(w)
    ensures Allowed(w, Fire(id), true) && LastingEvent(w, id) && Step(w, Fire(id)) == Ok(v)
    ensures Inv(v) && Free(v) && v.loop != Outside && v.poll == w.poll
    ensures forall c, t :: At(w.block, c, InSleep(t)) && t != id ==> At(v.block, c, InSleep(t))
  {
    id :| NewestDue(w, w.loop.maxId, id) && LastingEvent(w, id);
    StepKeepsInv(w, Fire(id));
    InvExpected(w, Fire(id));
    v := Step(w, Fire(id)).w;
  }

  lemma FreeIsPunctual(w: World) returns (v: World)
    requires Inv(w) && Free(w)
    ensures Goes(w, v) && Inv(v) && Quiet(v) && Punctual(v)
  {
    v := Deletes(w);
    forall id {:trigger v.timers[id]} | id in v.timers ensures Lasting(v.timers[id].proc) {
      if RestlessEvent(v, id) {
        assert IsFiring(w, id);
      }
    }
  }

  lemma OpenLeaves(w: World)
    requires Inv(w) && AtOpening(w) && w.loop != Outside && w.poll.Open? && w.poll.eventNum == 0
    ensures CanLeave(w, true)
  {
    if Punctual(w) {
      UncountedLeaves(w, true);
    } else if Free(w) {
      var v := FreeIsPunctual(w);
      UncountedLeaves(v, true);
      LeavesFrom(w, v);
    } else {
      var id, u := OpeningFires(w);
      var v := FreeIsPunctual(u);
      UncountedLeaves(v, true);
      LeavesFrom(u, v);
      LeadsHere(u, true);
      LeadsOn(w, Fire(id), u, true);
      LeavesFrom(w, u);
    }
  }

  lemma LeavesFrom(w: World, v: World)
    requires Leads(w, v, true) && CanLeave(v, true)
    ensures CanLeave(w, true)
  {
    var u :| Leads(v, u, true) && u.loop == Outside;
    LeadsThrough(w, v, u, true);
  }

  /** Inside the loop event_wait can return at times the clock allows exactly when nobody has
      waited for a descriptor since the poll was opened and no restless event gets ahead of
      all PHP code. */
  lemma LeavesInTimeExactly(w: World)
    requires Reachable(w) && w.loop != Outside
    ensures w.poll.Open? && (CanLeave(w, true) <==> w.poll.eventNum == 0 && !Blocked(w))
  {
    ReachableIsGood(w);
    if Blocked(w) {
      forall v | Leads(w, v, true) ensures v.loop != Outside {
        BlockedLeads(w, v);
      }
    } else if w.poll.eventNum == 0 {
      var u := FindsOpening(w);
      OpenLeaves(u);
      LeavesFrom(w, u);
    } else {
      CountedStays(w);
    }
  }

  /** Some run that the clock allows has timer `id` fire and wake `c`. */
  ghost predicate Wakeable(w: World, c: int, id: int) {
    exists v ::
      && Leads(w, v, true) && Allowed(v, Fire(id), true)
      && Step(v, Fire(id)).Ok? && Self(Step(v, Fire(id)).w) == c
  }

  lemma WakeableFrom(w: World, v: World, c: int, id: int)
    requires Leads(w, v, true) && Wakeable(v, c, id)
    ensures Wakeable(w, c, id)
  {
    var u :| Leads(v, u, true) && Allowed(u, Fire(id), true) && Step(u, Fire(id)).Ok? && Self(Step(u, Fire(id)).w) == c;
    LeadsThrough(w, v, u, true);
  }

  lemma PunctualWakes(w: World, c: int, id: int)
    requires Inv(w) && Punctual(w) && At(w.block, c, InSleep(id))
    ensures Wakeable(w, c, id)
  {
    InvCanWake(w, c, id, true);
  }

  lemma FreeWakes(w: World, c: int, id: int)
    requires Inv(w) && Free(w) && At(w.block, c, InSleep(id))
    ensures Wakeable(w, c, id)
  {
    var v := FreeIsPunctual(w);
    PunctualWakes(v, c, id);
    WakeableFrom(w, v, c, id);
  }

  lemma OpenWakes(w: World, c: int, id: int)
    requires Inv(w) && AtOpening(w) && At(w.block, c, InSleep(id))
    ensures Wakeable(w, c, id)
  {
    if Punctual(w) {
      PunctualWakes(w, c, id);
    } else if Free(w) {
      FreeWakes(w, c, id);
    } else {
      var t, u := OpeningFires(w);
      if t == id {
        FiredRuns(w, c, id);
        LeadsHere(w, true);
      } else {
        FreeWakes(u, c, id);
        LeadsHere(u, true);
        LeadsOn(w, Fire(t), u, true);
        WakeableFrom(w, u, c, id);
      }
    }
  }

  /** At every moment of every disciplined run a sleeper can be woken by its timer at times
      the clock allows exactly when no restless event gets ahead of all PHP code. */
  lemma SleeperWakesExactly(w: World, c: int, id: int)
    requires Reachable(w) && At(w.block, c, InSleep(id))
    ensures Wakeable(w, c, id) <==> !Blocked(w)
  {
    ReachableIsGood(w);
    if Blocked(w) {
      BlockedSleeps(w, c, id);
    } else {
      var u := FindsOpening(w);
      OpenWakes(u, c, id);
      WakeableFrom(w, u, c, id);
    }
  }

  lemma BlockedSleeps(w: World, c: int, id: int)
    requires Inv(w) && Blocked(w) && c in w.block
    ensures !Wakeable(w, c, id)
  {
    NoMain(w);
    forall v | Leads(w, v, true) && Allowed(v, Fire(id), true) && Step(v, Fire(id)).Ok?
      ensures Self(Step(v, Fire(id)).w) != c {
      BlockedLeads(w, v);
      RestlessWakesNobody(v, id);
    }
  }

  lemma RestlessWakesNobody(w: World, id: int)
    requires Blocked(w) && Allowed(w, Fire(id), true)
    ensures Step(w, Fire(id)).Ok? && Self(Step(w, Fire(id)).w) == 0
  {
    BlockedFires(w, id);
  }

  /** For instance: main makes a tick of 0 ms and enters the loop. */
  lemma ZeroTickTraps(w: World) returns (v: World)
    requires Start(w)
    ensures Reachable(v) && v.loop == Waiting && v.poll.Open? && v.poll.eventNum == 0
    ensures CanLeave(v, false) && !CanLeave(v, true)
  {
    v := TicksAtOnce(w);
    assert RestlessEvent(v, 0);
    LeavesInTimeExactly(v);
    LeavesExactlyUncounted(v);
  }

  lemma TicksAtOnce(w: World) returns (v: World)
    requires Start(w)
    ensures Reachable(v) && InMain(v) && v.loop == Waiting && v.poll == Open(map[], 0)
    ensures v.timers == map[0 := Timer(Calls(0), v.now)]
  {
    assert Run(w, []) == Ok(w);
    ReachableOn(w, StartTimer(0, 0));
    var u := Step(w, StartTimer(0, 0)).w;
    ReachableOn(u, EnterLoop);
    v := Step(u, EnterLoop).w;
  }
}

/** Channel waits with a timeout: exactly they break the single-waker discipline.  Such a wait
    leaves two entries that name one coroutine, and neither is taken back when the other is
    served. */
module RuntimeTimeouts {
  import S = SwitchSpec
  import C = ChannelSpec
  import opened Runtime
  import opened RuntimeBase
  import opened RuntimeSteps
  import opened RuntimeRuns
  import opened RuntimeLoop

  /** Some disciplined continuation, if `clock` at times the clock allows, resumes `c` while
      it is not suspended. */
  ghost predicate Doomed(w: World, c: int, clock: bool) {
    exists steps :: KeptSchedule(w, steps, clock) && Run(w, steps) == BadResume(c)
  }

  lemma DoomedNow(w: World, a: Action, c: int, clock: bool)
    requires Allowed(w, a, clock) && Step(w, a) == BadResume(c)
    ensures Doomed(w, c, clock)
  {
    assert KeptSchedule(w, [a], clock) && Run(w, [a]) == BadResume(c);
  }

  lemma DoomedBefore(w: World, v: World, c: int, clock: bool)
    requires Leads(w, v, clock) && Doomed(v, c, clock)
    ensures Doomed(w, c, clock)
  {
    var a :| KeptSchedule(w, a, clock) && Run(w, a) == Ok(v);
    var b :| KeptSchedule(v, b, clock) && Run(v, b) == BadResume(c);
    RunOn(w, a, b, clock);
    assert KeptSchedule(w, a + b, clock) && Run(w, a + b) == BadResume(c);
  }

  lemma LeadsByThree(w: World, a: Action, w1: World, b: Action, w2: World, c: Action, v: World, clock: bool)
    requires Allowed(w, a, clock) && Step(w, a) == Ok(w1)
    requires Allowed(w1, b, clock) && Step(w1, b) == Ok(w2)
    requires Allowed(w2, c, clock) && Step(w2, c) == Ok(v)
    ensures Leads(w, v, clock)
  {
    LeadsHere(v, clock);
    LeadsOn(w2, c, v, clock);
    LeadsOn(w1, b, v, clock);
    LeadsOn(w, a, v, clock);
  }

  // ----- a stale queue entry -----------------------------------------------------------

  /** `c` has control and waits for nothing. */
  ghost predicate Running(w: World, c: int) {
    S.StackWf(w.sw) && !InMain(w) && S.Top(w.sw) == c && At(w.block, c, Ready)
  }

  ghost predicate Waiter(w: World, ch: int, s: C.Sys, x: int) {
    x in s.waiting && x in w.sw.parked && WaitsIn(w.block, x, ch)
  }

  function CallOf(a: Action, c: int): C.Event
    requires a.Push? || a.Pop?
  {
    if a.Push? then C.CallPush(c, a.d) else C.CallPop(c)
  }

  /** A call of `c` that hands over to the waiter `d`. */
  ghost predicate HandsOver(w: World, a: Action, c: int, d: int) {
    && Running(w, c) && (a.Push? || a.Pop?) && a.timeout == 0 && a.ch in w.chans
    && (var s := w.chans[a.ch];
        && s.landing == C.None && c !in s.waiting && d != c && Waiter(w, a.ch, s, d)
        && C.Next(s, CallOf(a, c)).landing == C.Some(d) && C.Next(s, CallOf(a, c)).waiting == s.waiting)
  }

  lemma Called(w: World, a: Action, c: int, d: int, clock: bool) returns (v: World)
    requires HandsOver(w, a, c, d)
    ensures Allowed(w, a, clock) && Step(w, a) == Ok(v)
    ensures v == w.(sw := S.Step(w.sw, S.Resume(d)), chans := w.chans[a.ch := C.Next(w.chans[a.ch], CallOf(a, c))])
  {
    var t := C.Next(w.chans[a.ch], CallOf(a, c));
    v := Step(w, a).w;
    assert t.(landing := C.None).(landing := C.Some(d)) == t;
    assert v.chans == w.chans[a.ch := t];
  }

  lemma Landed(w: World, ch: int, d: int, clock: bool) returns (v: World)
    requires !InMain(w) && S.Top(w.sw) == d && WaitsIn(w.block, d, ch) && ch in w.chans
    requires w.chans[ch].landing == C.Some(d) && d in w.chans[ch].waiting
    requires var u := C.Next(w.chans[ch], C.Land); u.landing == C.None && d !in u.waiting
    ensures Allowed(w, Land, clock) && Step(w, Land) == Ok(v)
    ensures v == w.(block := w.block[d := Ready], chans := w.chans[ch := C.Next(w.chans[ch], C.Land)])
  {
    v := Step(w, Land).w;
  }

  lemma YieldedBack(w: World, u: World, c: int, d: int, clock: bool) returns (v: World)
    requires Running(w, c) && d != c && d in w.sw.parked
    requires u.sw == S.Step(w.sw, S.Resume(d)) && u.block == w.block[d := Ready]
    ensures Allowed(u, UserYield, clock) && Step(u, UserYield) == Ok(v)
    ensures Running(v, c) && v.block == u.block[d := InUserYield] && v.chans == u.chans
    ensures v.sw.parked.Keys == w.sw.parked.Keys
  {
    v := Step(u, UserYield).w;
    assert v.sw.active == w.sw.active;
    S.LiveStep(w.sw, S.Resume(d));
    S.LiveStep(u.sw, S.Yield);
  }

  ghost function AfterServing(s: C.Sys, a: Action, c: int): C.Sys
    requires (a.Push? || a.Pop?) && C.Enabled(s, CallOf(a, c)) && C.Enabled(C.Next(s, CallOf(a, c)), C.Land)
  {
    C.Next(C.Next(s, CallOf(a, c)), C.Land)
  }

  /** `d` takes its turn and yields, so that `c` has control again. */
  lemma ServedSteps(w: World, a: Action, c: int, d: int, clock: bool) returns (w1: World, w2: World, v: World)
    requires HandsOver(w, a, c, d)
    requires var u := AfterServing(w.chans[a.ch], a, c); u.landing == C.None && d !in u.waiting
    ensures Allowed(w, a, clock) && Step(w, a) == Ok(w1)
    ensures Allowed(w1, Land, clock) && Step(w1, Land) == Ok(w2)
    ensures Allowed(w2, UserYield, clock) && Step(w2, UserYield) == Ok(v)
    ensures Running(v, c) && v.sw.parked.Keys == w.sw.parked.Keys
    ensures v.block == w.block[d := Ready][d := InUserYield]
    ensures v.chans == w.chans[a.ch := C.Next(w.chans[a.ch], CallOf(a, c))][a.ch := AfterServing(w.chans[a.ch], a, c)]
  {
    w1 := Called(w, a, c, d, clock);
    assert S.Top(w1.sw) == d;
    w2 := Landed(w1, a.ch, d, clock);
    v := YieldedBack(w, w2, c, d, clock);
  }

  lemma Served(w: World, a: Action, c: int, d: int, clock: bool) returns (v: World)
    requires HandsOver(w, a, c, d)
    requires var u := AfterServing(w.chans[a.ch], a, c); u.landing == C.None && d !in u.waiting
    ensures Leads(w, v, clock) && Running(v, c) && v.block == w.block[d := InUserYield]
    ensures v.chans == w.chans[a.ch := AfterServing(w.chans[a.ch], a, c)]
    ensures v.sw.parked.Keys == w.sw.parked.Keys
  {
    var w1, w2, u := ServedSteps(w, a, c, d, clock);
    v := u;
    LeadsByThree(w, a, w1, Land, w2, UserYield, v, clock);
    Overwritten(w.block, d, Ready, InUserYield);
    Overwritten(w.chans, a.ch, C.Next(w.chans[a.ch], CallOf(a, c)), AfterServing(w.chans[a.ch], a, c));
  }

  lemma Overwritten<T>(m: map<int, T>, k: int, a: T, b: T)
    ensures m[k := a][k := b] == m[k := b]
  {
  }

  /** The channel is empty; its consumers are waiting but for `c`, whose entry is stale. */
  ghost predicate LeftConsumer(s: C.Sys, c: int) {
    && s.landing == C.None && c !in s.waiting && s.chan.capacity >= 1
    && s.chan.data == [] && s.chan.producers == []
    && c in s.chan.consumers && S.Distinct(s.chan.consumers)
    && forall x {:trigger x in s.chan.consumers} :: x in s.chan.consumers && x != c ==>
         x in s.waiting && s.waiting[x].Popping?
  }

  /** The channel is full; its producers are waiting but for `c`, whose entry is stale. */
  ghost predicate LeftProducer(s: C.Sys, c: int) {
    && s.landing == C.None && c !in s.waiting && s.chan.capacity >= 1
    && C.Full(s.chan) && s.chan.consumers == []
    && c in s.chan.producers && S.Distinct(s.chan.producers)
    && forall x {:trigger x in s.chan.producers} :: x in s.chan.producers && x != c ==>
         x in s.waiting && s.waiting[x].Pushing?
  }

  lemma PushServes(s: C.Sys, c: int)
    requires LeftConsumer(s, c) && s.chan.consumers[0] != c
    ensures var d, t := s.chan.consumers[0], C.Next(s, C.CallPush(c, 0));
            && d in s.chan.consumers && d in s.waiting && t.landing == C.Some(d) && t.waiting == s.waiting
            && C.Next(t, C.Land).waiting == s.waiting - {d}
            && C.Next(t, C.Land).chan.consumers == s.chan.consumers[1..]
            && LeftConsumer(C.Next(t, C.Land), c)
  {
    var d := s.chan.consumers[0];
    assert d in s.chan.consumers;
    var u := C.Next(C.Next(s, C.CallPush(c, 0)), C.Land);
    assert u.chan.data == [];
    assert forall x :: x in u.chan.consumers ==> x in s.chan.consumers && x != d;
  }

  lemma PopServes(s: C.Sys, c: int)
    requires LeftProducer(s, c) && s.chan.producers[0] != c
    ensures var d, t := s.chan.producers[0], C.Next(s, C.CallPop(c));
            && d in s.chan.producers && d in s.waiting && t.landing == C.Some(d) && t.waiting == s.waiting
            && C.Next(t, C.Land).waiting == s.waiting - {d}
            && C.Next(t, C.Land).chan.producers == s.chan.producers[1..]
            && LeftProducer(C.Next(t, C.Land), c)
  {
    var d := s.chan.producers[0];
    assert d in s.chan.producers;
    var u := C.Next(C.Next(s, C.CallPop(c)), C.Land);
    assert forall x :: x in u.chan.producers ==> x in s.chan.producers && x != d;
  }

  /** `c` runs, and all who wait in channel `ch` are suspended. */
  ghost predicate Stale(w: World, ch: int, c: int) {
    && Running(w, c) && ch in w.chans
    && forall x {:trigger x in w.chans[ch].waiting} :: x in w.chans[ch].waiting ==> Waiter(w, ch, w.chans[ch], x)
  }

  /** The others still wait once `d` does not. */
  lemma OthersStillWait(w: World, v: World, ch: int, d: int, b: Block)
    requires ch in w.chans && ch in v.chans && v.chans[ch].waiting == w.chans[ch].waiting - {d}
    requires forall x {:trigger x in w.chans[ch].waiting} :: x in w.chans[ch].waiting ==> Waiter(w, ch, w.chans[ch], x)
    requires v.block == w.block[d := b] && w.sw.parked.Keys - {d} <= v.sw.parked.Keys
    ensures forall x {:trigger x in v.chans[ch].waiting} :: x in v.chans[ch].waiting ==> Waiter(v, ch, v.chans[ch], x)
  {
    forall x | x in v.chans[ch].waiting ensures Waiter(v, ch, v.chans[ch], x) {
      assert x in w.chans[ch].waiting && x in w.sw.parked.Keys;
    }
  }

  /** With the entry of a coroutine that runs left in the consumer queue, its pushes serve
      those before it and then resume itself. */
  lemma StaleConsumerIsDoomed(w: World, ch: int, c: int, clock: bool)
    requires Stale(w, ch, c) && LeftConsumer(w.chans[ch], c)
    ensures Doomed(w, c, clock)
    decreases |w.chans[ch].chan.consumers|
  {
    var a, s := Push(ch, 0, 0), w.chans[ch];
    var d := s.chan.consumers[0];
    if d == c {
      assert Step(w, a) == BadResume(c);
      DoomedNow(w, a, c, clock);
    } else {
      PushServes(s, c);
      var v := Served(w, a, c, d, clock);
      OthersStillWait(w, v, ch, d, InUserYield);
      StaleConsumerIsDoomed(v, ch, c, clock);
      DoomedBefore(w, v, c, clock);
    }
  }

  /** The same for the producer queue and pops. */
  lemma StaleProducerIsDoomed(w: World, ch: int, c: int, clock: bool)
    requires Stale(w, ch, c) && LeftProducer(w.chans[ch], c)
    ensures Doomed(w, c, clock)
    decreases |w.chans[ch].chan.producers|
  {
    var a, s := Pop(ch, 0), w.chans[ch];
    var d := s.chan.producers[0];
    if d == c {
      assert Step(w, a) == BadResume(c);
      DoomedNow(w, a, c, clock);
    } else {
      PopServes(s, c);
      var v := Served(w, a, c, d, clock);
      OthersStillWait(w, v, ch, d, InUserYield);
      StaleProducerIsDoomed(v, ch, c, clock);
      DoomedBefore(w, v, c, clock);
    }
  }

  // ----- a timer beside the queue entry ------------------------------------------------

  /** The books are in order but for one timer too many: `t` will resume `c`, who waits in
      channel `ch`. */
  ghost predicate Twice(w: World, t: int, c: int, ch: int) {
    && Inv(Without(w, t)) && Quiet(w) && WaitsIn(w.block, c, ch)
    && t in w.timers && w.timers[t].proc == Wakes(c) && t < w.nextTimer && !IsFiring(w, t)
  }

  /** A waiter who goes on without having been served fails, and leaves its entry behind. */
  lemma LandingFails(s: C.Sys, c: int)
    requires C.Inv(s) && s.landing == C.None && c in s.waiting
    ensures var u := C.Next(s.(landing := C.Some(c)), C.Land);
            u.waiting == s.waiting - {c} && (LeftConsumer(u, c) || LeftProducer(u, c))
  {
    SlotsAreDistinct(s);
    assert C.Queued(c, C.Producers(s), C.Consumers(s));
    assert forall x :: x in s.chan.consumers ==> x in s.waiting && s.waiting[x].Popping?;
    assert forall x :: x in s.chan.producers ==> x in s.waiting && s.waiting[x].Pushing?;
  }

  lemma FiredWakesWaiter(w: World, t: int, c: int, ch: int) returns (v: World)
    requires Enabled(w, Fire(t)) && w.timers[t].proc == Wakes(c)
    requires c in w.sw.parked && WaitsIn(w.block, c, ch) && ch in w.chans
    ensures Step(w, Fire(t)) == Ok(v) && v.block == w.block
    ensures v.sw == S.Step(w.sw, S.Resume(c)) && v.chans == w.chans[ch := w.chans[ch].(landing := C.Some(c))]
  {
    v := Step(w, Fire(t)).w;
  }

  lemma WaitersAreSuspended(w: World, ch: int)
    requires Base(w) && InMain(w) && ch in w.chans
    ensures forall x {:trigger x in w.chans[ch].waiting} :: x in w.chans[ch].waiting ==> Waiter(w, ch, w.chans[ch], x)
  {
    forall x {:trigger x in w.chans[ch].waiting} | x in w.chans[ch].waiting ensures Waiter(w, ch, w.chans[ch], x) {
      assert WaitsIn(w.block, x, ch);
    }
  }

  /** What the books say of a coroutine that waits in a channel while main runs. */
  lemma WaiterInBooks(w: World, c: int, ch: int)
    requires Base(w) && Orders(w) && InMain(w) && WaitsIn(w.block, c, ch)
    ensures ch in w.chans && C.Inv(w.chans[ch]) && w.chans[ch].landing == C.None && Waiter(w, ch, w.chans[ch], c)
  {
    NoLanding(w, ch);
    ParkedAt(w, c);
  }

  lemma FiredLands(w: World, t: int, c: int, ch: int, clock: bool) returns (v: World)
    requires InMain(w) && ch in w.chans && Waiter(w, ch, w.chans[ch], c)
    requires Allowed(w, Fire(t), clock) && w.timers[t].proc == Wakes(c)
    requires var u := C.Next(w.chans[ch].(landing := C.Some(c)), C.Land); u.landing == C.None && c !in u.waiting
    ensures Leads(w, v, clock) && v.sw == S.Step(w.sw, S.Resume(c)) && v.block == w.block[c := Ready]
    ensures ch in v.chans && v.chans[ch] == C.Next(w.chans[ch].(landing := C.Some(c)), C.Land)
  {
    var u := FiredWakesWaiter(w, t, c, ch);
    assert u.sw.active == [c];
    v := Landed(u, ch, c, clock);
    LeadsHere(v, clock);
    LeadsOn(u, Land, v, clock);
    LeadsOn(w, Fire(t), v, clock);
  }

  lemma BecomesStale(w: World, v: World, ch: int, c: int)
    requires S.StackWf(w.sw) && InMain(w) && c in w.sw.parked && ch in w.chans && ch in v.chans
    requires forall x {:trigger x in w.chans[ch].waiting} :: x in w.chans[ch].waiting ==> Waiter(w, ch, w.chans[ch], x)
    requires v.sw == S.Step(w.sw, S.Resume(c)) && v.block == w.block[c := Ready]
    requires v.chans[ch].waiting == w.chans[ch].waiting - {c}
    ensures Stale(v, ch, c)
  {
    S.LiveStep(w.sw, S.Resume(c));
    assert v.sw.active == [c];
    OthersStillWait(w, v, ch, c, Ready);
  }

  /** `c` runs, and its entry is left in one of the queues of the channel. */
  ghost predicate LeftEntry(w: World, ch: int, c: int) {
    Stale(w, ch, c) && (LeftConsumer(w.chans[ch], c) || LeftProducer(w.chans[ch], c))
  }

  lemma LeftIsDoomed(w: World, ch: int, c: int, clock: bool)
    requires LeftEntry(w, ch, c)
    ensures Doomed(w, c, clock)
  {
    if LeftConsumer(w.chans[ch], c) { StaleConsumerIsDoomed(w, ch, c, clock); }
    else { StaleProducerIsDoomed(w, ch, c, clock); }
  }

  /** The timer fires first: the call goes on and fails, and its queue entry stays. */
  lemma FiredIsStale(w: World, t: int, c: int, ch: int, clock: bool) returns (v: World)
    requires t in w.timers && w.timers[t].proc == Wakes(c) && Allowed(w, Fire(t), clock)
    requires Base(w) && Orders(w) && WaitsIn(w.block, c, ch)
    ensures Leads(w, v, clock) && LeftEntry(v, ch, c)
  {
    WaiterInBooks(w, c, ch);
    WaitersAreSuspended(w, ch);
    LandingFails(w.chans[ch], c);
    v := FiredLands(w, t, c, ch, clock);
    BecomesStale(w, v, ch, c);
  }

  /** Once a timer and a queue entry name the same waiter, the event loop comes round to the
      timer, and the waiter then resumes itself through the entry. */
  lemma TwiceIsDoomed(w: World, t: int, c: int, ch: int, clock: bool)
    requires Twice(w, t, c, ch) && PassesEnd(w, clock)
    ensures Doomed(w, c, clock)
  {
    var u := ComesRound(w, t, clock);
    assert WaitsIn(u.block, c, ch);
    BooksWithout(u, t);
    var v := FiredIsStale(u, t, c, ch, clock);
    LeftIsDoomed(v, ch, c, clock);
    LeadsThrough(w, u, v, clock);
    DoomedBefore(w, v, c, clock);
  }

  lemma BooksWithout(w: World, t: int)
    requires Inv(Without(w, t))
    ensures Base(w) && Orders(w)
  {
    BaseKept(Without(w, t), w);
  }

  // ----- exactly the timed waits -------------------------------------------------------

  /** A wait with a timeout is, but for the note of it, a wait without and a timer. */
  lemma TimerBeside(w: World, ch: int, t: C.Sys, c: int, timeout: int)
    requires c in t.waiting && timeout > 0 && AfterChannel(w, ch, t, c, 0).Ok? && InCoroutine(w) && c == Self(w)
    ensures var v := AfterChannel(w, ch, t, c, 0).w;
            AfterChannel(w, ch, t, c, timeout) ==
            Ok(ArmTimer(v, Wakes(c), timeout).(block := v.block[c := InChannel(ch, C.Some(w.nextTimer))]))
  {
    var v := AfterChannel(w, ch, t, c, 0).w;
    assert v.block[c := InChannel(ch, C.Some(w.nextTimer))] == w.block[c := InChannel(ch, C.Some(w.nextTimer))];
  }

  /** The books do not look at the note, nor at the number of the next timer. */
  lemma NotedKeepsInv(w: World, v: World, c: int, ch: int, alarm: C.Option)
    requires Inv(w) && Quiet(w) && WaitsIn(w.block, c, ch) && ch in w.chans
    requires v == w.(block := w.block[c := InChannel(ch, alarm)], nextTimer := w.nextTimer + 1)
    ensures Inv(v) && Quiet(v) && WaitsIn(v.block, c, ch)
  {
    Moved(w.block, c, w.block[c], InChannel(ch, alarm));
    NotedKeepsBase(w, v, c, ch, alarm);
    SleepersNoted(w, v);
    PollsKept(w, v);
    YieldsKept(w, v);
    DispatchesKept(w, v);
  }

  lemma SleepersNoted(w: World, v: World)
    requires Sleepers(w) && SameSleeps(w.block, v.block) && v.timers == w.timers && v.loop == w.loop
    requires v.nextTimer == w.nextTimer + 1
    ensures Sleepers(v)
  {
  }

  lemma NotedKeepsBase(w: World, v: World, c: int, ch: int, alarm: C.Option)
    requires Base(w) && Quiet(w) && WaitsIn(w.block, c, ch)
    requires v == w.(block := w.block[c := InChannel(ch, alarm)], nextTimer := w.nextTimer + 1)
    ensures Base(v) && Quiet(v)
  {
    assert forall d, x {:trigger WaitsIn(v.block, d, x)} :: WaitsIn(v.block, d, x) <==> WaitsIn(w.block, d, x);
    assert forall d, x {:trigger WaitsIn(w.block, d, x)} :: WaitsIn(w.block, d, x) ==> WaitsIn(v.block, d, x);
    ParkedAt(w, c);
  }

  lemma ArmedMakesTwo(w: World, v: World, c: int, ch: int, timeout: int)
    requires Inv(w) && Quiet(w) && WaitsIn(w.block, c, ch) && ch in w.chans
    requires v == ArmTimer(w, Wakes(c), timeout).(block := w.block[c := InChannel(ch, C.Some(w.nextTimer))])
    ensures Twice(v, w.nextTimer, c, ch)
  {
    var u := w.(block := w.block[c := InChannel(ch, C.Some(w.nextTimer))], nextTimer := w.nextTimer + 1);
    assert Without(v, w.nextTimer) == u by {
      assert w.nextTimer !in w.timers;
    }
    NotedKeepsInv(w, u, c, ch, C.Some(w.nextTimer));
  }

  lemma MustWait(w: World, ch: int, e: C.Event)
    requires Base(w) && InCoroutine(w) && ch in w.chans
    requires (e == C.CallPop(Self(w)) && w.chans[ch].chan.data == [])
          || (e.CallPush? && e.co == Self(w) && C.Full(w.chans[ch].chan))
    ensures C.Enabled(w.chans[ch], e) && Self(w) in C.Next(w.chans[ch], e).waiting
    ensures C.Next(w.chans[ch], e).waiting.Keys == w.chans[ch].waiting.Keys + {Self(w)}
    ensures C.Next(w.chans[ch], e).landing == C.None
  {
    NoLanding(w, ch);
    assert Self(w) in w.chans[ch].waiting ==> WaitsIn(w.block, Self(w), ch);
    ChannelEffect(w.chans[ch], e);
    assert Self(w) in C.Next(w.chans[ch], e).waiting.Keys;
  }

  lemma UntimedWait(w: World, ch: int, t: C.Sys) returns (v: World)
    requires Base(w) && InCoroutine(w) && ch in w.chans && Self(w) in t.waiting
    requires t.waiting.Keys == w.chans[ch].waiting.Keys + {Self(w)} && t.landing == C.None
    ensures AfterChannel(w, ch, t, Self(w), 0) == Ok(v)
    ensures Quiet(v) && WaitsIn(v.block, Self(w), ch) && v.nextTimer == w.nextTimer && ch in v.chans
  {
    WaitSane(w, ch, t, 0);
    v := AfterChannel(w, ch, t, Self(w), 0).w;
  }

  lemma TimedWaitMakesTwo(w: World, a: Action)
    requires Inv(w) && Enabled(w, a) && TimedWait(w, a)
    ensures Step(w, a).Ok? && Twice(Step(w, a).w, w.nextTimer, Self(w), a.ch)
  {
    var e, c, ch := CallOf(a, Self(w)), Self(w), a.ch;
    MustWait(w, ch, e);
    var t := C.Next(w.chans[ch], e);
    var v := UntimedWait(w, ch, t);
    StepKeepsInv(w, if a.Push? then Push(ch, a.d, 0) else Pop(ch, 0));
    TimerBeside(w, ch, t, c, a.timeout);
    ArmedMakesTwo(v, Step(w, a).w, c, ch, a.timeout);
  }

  lemma ArmedStaysPunctual(w: World, ch: int, s: C.Sys, c: int, timeout: int)
    requires Punctual(w) && c in s.waiting && timeout > 0 && AfterChannel(w, ch, s, c, timeout).Ok?
    ensures Punctual(AfterChannel(w, ch, s, c, timeout).w)
  {
    var v := AfterChannel(w, ch, s, c, timeout).w;
    assert v.loop == w.loop && v.timers == w.timers[w.nextTimer := Timer(Wakes(c), w.now + timeout)];
  }

  lemma TimedWaitStaysPunctual(w: World, a: Action)
    requires Base(w) && Punctual(w) && Enabled(w, a) && TimedWait(w, a) && Step(w, a).Ok?
    ensures Punctual(Step(w, a).w)
  {
    MustWait(w, a.ch, CallOf(a, Self(w)));
    ArmedStaysPunctual(w, a.ch, C.Next(w.chans[a.ch], CallOf(a, Self(w))), Self(w), a.timeout);
  }

  /** Some disciplined continuation, whatever the clock does, ends in a bad resume. */
  ghost predicate CanBreak(w: World) {
    exists steps :: DisciplinedSchedule(w, steps) && Run(w, steps).BadResume?
  }

  lemma InvCannotBreak(w: World)
    requires Inv(w)
    ensures !CanBreak(w)
  {
    forall steps | DisciplinedSchedule(w, steps) ensures Run(w, steps).Ok? {
      InvRun(w, steps);
    }
  }

  lemma DoomedCanBreak(w: World, c: int, clock: bool)
    requires Doomed(w, c, clock)
    ensures CanBreak(w)
  {
    var steps :| KeptSchedule(w, steps, clock) && Run(w, steps) == BadResume(c);
    assert DisciplinedSchedule(w, steps) && Run(w, steps).BadResume?;
  }

  /** In a disciplined run, a careful step keeps every disciplined continuation free of bad
      resumes exactly when it is not a channel wait with a timeout.  If it is one, some
      continuation resumes the coroutine that waited, not suspended, also one that the clock
      allows unless an event keeps passes from ending. */
  lemma ExactlyTimedWaitsBreak(w: World, a: Action)
    requires Reachable(w) && Enabled(w, a) && Careful(w, a)
    ensures Step(w, a).Ok?
    ensures CanBreak(Step(w, a).w) <==> TimedWait(w, a)
    ensures TimedWait(w, a) ==> Doomed(Step(w, a).w, Self(w), false)
    ensures TimedWait(w, a) && Punctual(w) ==> Doomed(Step(w, a).w, Self(w), true)
  {
    ReachableIsGood(w);
    if TimedWait(w, a) {
      TimedWaitMakesTwo(w, a);
      TwiceIsDoomed(Step(w, a).w, w.nextTimer, Self(w), a.ch, false);
      if Punctual(w) {
        TimedWaitStaysPunctual(w, a);
        TwiceIsDoomed(Step(w, a).w, w.nextTimer, Self(w), a.ch, true);
      }
      DoomedCanBreak(Step(w, a).w, Self(w), false);
    } else {
      StepKeepsInv(w, a);
      InvCannotBreak(Step(w, a).w);
    }
  }

  /** A timed wait leaves the caller with a timer beside its entry, due when the time is over. */
  lemma TimedWaitSets(w: World, a: Action)
    requires Inv(w) && Enabled(w, a) && TimedWait(w, a)
    ensures Step(w, a).Ok?
    ensures var v := Step(w, a).w;
            && Twice(v, w.nextTimer, Self(w), a.ch)
            && v.timers[w.nextTimer].due == w.now + a.timeout && v.now == w.now
  {
    TimedWaitMakesTwo(w, a);
    TimedWaitDue(w, a);
  }

  /** Such a timer can go off in time: if no event is restless, some continuation at times the
      clock allows wakes the coroutine exactly when the timer is due, or now if that is over. */
  lemma WaiterOnTime(w: World, t: int, c: int, ch: int)
    requires Twice(w, t, c, ch) && Punctual(w)
    ensures CanWakeAt(w, c, Max(w.now, w.timers[t].due))
  {
    var u := ComesRound(w, t, true);
    assert WaitsIn(u.block, c, ch);
    BooksWithout(u, t);
    FiresWaiter(u, t, c, ch);
    assert WakesAt(u, t, c, Max(w.now, w.timers[t].due));
  }

  lemma FiresWaiter(w: World, t: int, c: int, ch: int)
    requires Base(w) && Orders(w) && WaitsIn(w.block, c, ch)
    requires t in w.timers && w.timers[t].proc == Wakes(c) && Enabled(w, Fire(t))
    ensures Step(w, Fire(t)).Ok? && Self(Step(w, Fire(t)).w) == c
  {
    WaiterInBooks(w, c, ch);
    var v := FiredWakesWaiter(w, t, c, ch);
  }

  lemma TimedWaitDue(w: World, a: Action)
    requires Base(w) && Enabled(w, a) && TimedWait(w, a) && Step(w, a).Ok?
    ensures var v := Step(w, a).w;
            v.now == w.now && w.nextTimer in v.timers && v.timers[w.nextTimer].due == w.now + a.timeout
  {
    MustWait(w, a.ch, CallOf(a, Self(w)));
    ArmedDue(w, a.ch, C.Next(w.chans[a.ch], CallOf(a, Self(w))), Self(w), a.timeout);
  }

  lemma ArmedDue(w: World, ch: int, s: C.Sys, c: int, timeout: int)
    requires c in s.waiting && timeout > 0 && AfterChannel(w, ch, s, c, timeout).Ok?
    ensures var v := AfterChannel(w, ch, s, c, timeout).w;
            v.now == w.now && w.nextTimer in v.timers && v.timers[w.nextTimer].due == w.now + timeout
  {
  }

  lemma CoroutineRuns(w: World) returns (v: World)
    requires Start(w)
    ensures Reachable(v) && InCoroutine(v) && Self(v) == 1 && v.chans == map[1 := C.Fresh(1)] && Punctual(v)
  {
    assert Run(w, []) == Ok(w);
    ReachableOn(w, NewChannel(1, 1));
    var u := Step(w, NewChannel(1, 1)).w;
    ReachableOn(u, Create(0, 0));
    v := Step(u, Create(0, 0)).w;
    assert v.sw.active == [1];
  }

  /** For instance: main makes a channel and a coroutine, which pops with a timeout. */
  lemma TimedPopBreaks(w: World) returns (v: World)
    requires Start(w)
    ensures Reachable(v) && Enabled(v, Pop(1, 5)) && Self(v) == 1
    ensures Step(v, Pop(1, 5)).Ok? && Doomed(Step(v, Pop(1, 5)).w, 1, true)
  {
    v := CoroutineRuns(w);
    ExactlyTimedWaitsBreak(v, Pop(1, 5));
  }
}

/** The parts of the runtime machine are the parts modelled by themselves: its timers are the
    list of module TimerSpec, a pass at the times the clock allows takes the turns of module
    TimerTurns, and its epoll instance is that of module Poll. */
module RuntimeViews {
  import T = TimerSpec
  import Turns = TimerTurns
  import P = Poll
  import C = ChannelSpec
  import opened Runtime
  import opened RuntimeRuns

  // ----- timers ------------------------------------------------------------------------

  /** A deadline in its normal form, or one with negative milliseconds, as a negative delay
      can leave it, that has passed already. */
  predicate Orderly(e: T.Event, now: T.Clock) {
    e.ms < 1000 && (e.ms >= 0 || T.Due(e, now))
  }

  /** `ts` is the timer list of `w`, and the clock shows `now`. */
  ghost predicate View(w: World, ts: T.Timers, now: T.Clock) {
    && T.Wf(ts) && ts.nextId == w.nextTimer && T.Proper(now) && T.Millis(now) == w.now
    && (forall id :: id in w.timers <==> T.Has(ts.events, id))
    && (forall e {:trigger e in ts.events} :: e in ts.events ==>
          e.id in w.timers && w.timers[e.id].due == T.Millis(T.Deadline(e)) && Orderly(e, now))
  }

  lemma OrderlyDue(e: T.Event, now: T.Clock)
    requires T.Proper(now) && Orderly(e, now)
    ensures T.Due(e, now) <==> T.Millis(T.Deadline(e)) <= T.Millis(now)
  {
  }

  lemma DueAgrees(w: World, ts: T.Timers, now: T.Clock, e: T.Event)
    requires View(w, ts, now) && e in ts.events
    ensures Due(w, e.id) <==> T.Due(e, now)
  {
    OrderlyDue(e, now);
  }

  lemma EventOf(w: World, ts: T.Timers, now: T.Clock, id: int) returns (e: T.Event)
    requires View(w, ts, now) && id in w.timers
    ensures e in ts.events && e.id == id && (Due(w, id) <==> T.Due(e, now))
  {
    T.HasIs(ts.events, id);
    e :| e in ts.events && e.id == id;
    DueAgrees(w, ts, now, e);
  }

  lemma NewestAgrees(w: World, ts: T.Timers, now: T.Clock, id: int)
    requires View(w, ts, now) && w.loop.Passing?
    ensures Turns.NewestDue(ts, w.loop.maxId, now, id) <==> id <= w.loop.maxId && Timely(w, Fire(id))
  {
    var maxId := w.loop.maxId;
    if Turns.NewestDue(ts, maxId, now, id) {
      var e :| e in ts.events && e.id == id && Turns.Fires(e, maxId, now);
      DueAgrees(w, ts, now, e);
      forall i | i in w.timers && id < i <= maxId ensures !Due(w, i) {
        var d := EventOf(w, ts, now, i);
      }
    }
    if id <= maxId && Timely(w, Fire(id)) {
      var e := EventOf(w, ts, now, id);
      forall d {:trigger d in ts.events} | d in ts.events && Turns.Fires(d, maxId, now) ensures d.id <= id {
        DueAgrees(w, ts, now, d);
      }
      assert Turns.Fires(e, maxId, now);
    }
  }

  lemma IdleAgrees(w: World, ts: T.Timers, now: T.Clock)
    requires View(w, ts, now) && w.loop.Passing?
    ensures Timely(w, PassDone) <==> Turns.Idle(ts, w.loop.maxId, now)
  {
    Turns.FiringIsNewest(ts, w.loop.maxId, now);
    if Turns.Idle(ts, w.loop.maxId, now) {
      forall i | i in w.timers && i <= w.loop.maxId ensures !Due(w, i) {
        var e := EventOf(w, ts, now, i);
      }
    } else {
      var e :| e in ts.events && Turns.Fires(e, w.loop.maxId, now);
      DueAgrees(w, ts, now, e);
    }
  }

  /** At the times the clock allows, a pass of the machine fires the event that the scan from
      the head of the list finds, and ends when the scan finds none. */
  lemma PassPicks(w: World, ts: T.Timers, now: T.Clock, id: int)
    requires View(w, ts, now) && InMain(w) && w.loop.Passing?
    ensures Enabled(w, Fire(id)) && Timely(w, Fire(id)) <==>
              !Turns.Idle(ts, w.loop.maxId, now) && id == Turns.Firing(ts, w.loop.maxId, now)
    ensures Timely(w, PassDone) <==> Turns.Idle(ts, w.loop.maxId, now)
  {
    IdleAgrees(w, ts, now);
    NewestAgrees(w, ts, now, id);
    Turns.FiringIsNewest(ts, w.loop.maxId, now);
  }

  // ----- what steps do to timers -------------------------------------------------------

  lemma LaterIsOrderly(now: T.Clock, delay: int, id: int, fin: bool)
    requires T.Proper(now)
    ensures var at := T.Later(now, delay);
            Orderly(T.Event(id, at.sec, at.ms, fin), now) && T.Millis(at) == T.Millis(now) + delay
  {
    T.LaterIsExact(now, delay);
    T.DueAgainAtOnce(now, delay, id, fin);
  }

  lemma ArmIsAdd(w: World, ts: T.Timers, now: T.Clock, proc: Proc, delay: int, fin: bool)
    requires View(w, ts, now)
    ensures View(ArmTimer(w, proc, delay), T.Add(ts, now, delay, fin), now)
  {
    var v, t := ArmTimer(w, proc, delay), T.Add(ts, now, delay, fin);
    T.WfAdd(ts, now, delay, fin);
    LaterIsOrderly(now, delay, ts.nextId, fin);
    assert t.events == [t.events[0]] + ts.events;
    forall id ensures id in v.timers <==> T.Has(t.events, id) {
      T.HasIs(ts.events, id);
      T.HasIs(t.events, id);
      assert t.events[0] in t.events;
    }
  }

  lemma CancelIsRemove(w: World, ts: T.Timers, now: T.Clock, id: int)
    requires View(w, ts, now)
    ensures View(w.(timers := w.timers - {id}), T.Remove(ts, id), now)
  {
    T.WfRemove(ts, id);
    forall x ensures T.Has(T.Remove(ts, id).events, x) <==> T.Has(ts.events, x) && x != id {
      T.HasIs(ts.events, x);
      T.HasIs(T.Remove(ts, id).events, x);
    }
  }

  lemma TickIsLater(w: World, ts: T.Timers, now: T.Clock, ms: nat)
    requires View(w, ts, now)
    ensures View(w.(now := w.now + ms), ts, T.Later(now, ms))
  {
    T.LaterIsExact(now, ms);
    forall e {:trigger e in ts.events} | e in ts.events ensures Orderly(e, T.Later(now, ms)) {
      OrderlyDue(e, now);
    }
  }

  /** What process_time_event does with an event when its callback has returned. */
  ghost function Finished(ts: T.Timers, id: int, now: T.Clock, ret: int): T.Timers {
    if ret == NOMORE then T.Remove(ts, id) else ts.(events := T.Retimed(ts.events, id, T.Later(now, ret)))
  }

  ghost function Ret(proc: Proc): int {
    if proc.Calls? then proc.period else NOMORE
  }

  lemma PutOffAgrees(w: World, ts: T.Timers, now: T.Clock, id: int, ret: int)
    requires View(w, ts, now) && id in w.timers
    ensures View(w.(timers := w.timers[id := w.timers[id].(due := w.now + ret)]),
                 ts.(events := T.Retimed(ts.events, id, T.Later(now, ret))), now)
  {
    var at := T.Later(now, ret);
    T.WfRetimed(ts, id, at);
    var t := ts.(events := T.Retimed(ts.events, id, at));
    forall x ensures T.Has(t.events, x) <==> T.Has(ts.events, x) {
      T.RetimedHas(ts.events, id, at, x);
    }
    forall e {:trigger e in t.events} | e in t.events && e.id == id
      ensures T.Deadline(e) == at && Orderly(e, now) && T.Millis(at) == w.now + ret {
      LaterIsOrderly(now, ret, id, e.fin);
    }
  }

  lemma FinishAgrees(w: World, ts: T.Timers, now: T.Clock)
    requires View(w, ts, now) && w.loop.Firing?
    ensures Freed(w) <==> Ret(w.loop.proc) != NOMORE && !T.Has(ts.events, w.loop.id)
    ensures !Freed(w) ==> View(w.(timers := AfterCallback(w)), Finished(ts, w.loop.id, now, Ret(w.loop.proc)), now)
  {
    if !Periodic(w.loop.proc) {
      CancelIsRemove(w, ts, now, w.loop.id);
    } else if w.loop.id in w.timers {
      PutOffAgrees(w, ts, now, w.loop.id, w.loop.proc.period);
    }
  }

  // ----- a callback is a turn ----------------------------------------------------------

  /** A call of PHP code that makes or deletes a timer. */
  predicate TimerCall(a: Action) {
    a.StartTimer? || a.CancelTimer?
  }

  function OpOf(a: Action): T.TimerOp
    requires TimerCall(a)
  {
    if a.StartTimer? then T.Start(a.delay, true) else T.Cancel(a.id)
  }

  function OpsOf(calls: seq<Action>): (ops: seq<T.TimerOp>)
    requires forall a :: a in calls ==> TimerCall(a)
    ensures |ops| == |calls| && forall i :: 0 <= i < |calls| ==> ops[i] == OpOf(calls[i])
  {
    seq(|calls|, i requires 0 <= i < |calls| => OpOf(calls[i]))
  }

  lemma {:induction false} ScheduleOn(w: World, steps: seq<Action>, v: World, a: Action)
    requires Schedule(w, steps) && Run(w, steps) == Ok(v) && Enabled(v, a)
    ensures Schedule(w, steps + [a]) && Run(w, steps + [a]) == Step(v, a)
    decreases |steps|
  {
    var all := steps + [a];
    if steps == [] {
      assert all[0] == a && all[1..] == [];
    } else {
      assert all[0] == steps[0] && all[1..] == steps[1..] + [a];
      ScheduleOn(Step(w, steps[0]).w, steps[1..], v, a);
    }
  }

  lemma CallAgrees(w: World, ts: T.Timers, now: T.Clock, a: Action) returns (v: World)
    requires View(w, ts, now) && InMain(w) && w.loop.Firing? && w.loop.proc.Calls? && TimerCall(a)
    ensures Enabled(w, a) && Step(w, a) == Ok(v) && View(v, T.Apply(ts, now, OpOf(a)), now)
    ensures InMain(v) && v.loop == w.loop
  {
    v := Step(w, a).w;
    match a {
      case StartTimer(delay, period) => ArmIsAdd(w, ts, now, Calls(period), delay, true);
      case CancelTimer(id) => CancelIsRemove(w, ts, now, id);
    }
  }

  lemma {:induction false} CallsAgree(w: World, ts: T.Timers, now: T.Clock, calls: seq<Action>) returns (v: World)
    requires View(w, ts, now) && InMain(w) && w.loop.Firing? && w.loop.proc.Calls?
    requires forall a :: a in calls ==> TimerCall(a)
    ensures Schedule(w, calls) && Run(w, calls) == Ok(v) && View(v, T.ApplyAll(ts, now, OpsOf(calls)), now)
    ensures InMain(v) && v.loop == w.loop
    decreases |calls|
  {
    if calls == [] {
      v := w;
    } else {
      var most, last := calls[..|calls| - 1], calls[|calls| - 1];
      assert last in calls && calls == most + [last] && OpsOf(calls)[..|calls| - 1] == OpsOf(most);
      var u := CallsAgree(w, ts, now, most);
      v := CallAgrees(u, T.ApplyAll(ts, now, OpsOf(most)), now, last);
      ScheduleOn(w, most, u, last);
    }
  }

  lemma HarmlessIsNotFreed(ts: T.Timers, now: T.Clock, id: int, r: T.Reaction)
    requires T.Wf(ts) && T.Has(ts.events, id)
    ensures T.Has(T.ApplyAll(ts, now, r.ops).events, id) <==> T.Cancel(id) !in r.ops
  {
    T.ApplyAllIs(ts, now, r.ops);
    T.HasIs(ts.events, id);
    T.HasIs(T.ApplyAll(ts, now, r.ops).events, id);
    var e :| e in ts.events && e.id == id;
    assert ts.events[T.IndexOf(ts.events, id)].id == id;
  }

  /** The callback of an event with PHP code that makes and deletes timers: it fires, makes
      its calls, and returns. */
  function Callback(id: int, calls: seq<Action>): seq<Action> {
    [Fire(id)] + (calls + [FireDone])
  }

  /** In a pass of the machine at times the clock allows, each callback is a turn of the loop
      over the list, and one that the machine has no meaning for breaks the pass off. */
  lemma CallbackIsTurn(w: World, ts: T.Timers, now: T.Clock, id: int, calls: seq<Action>, k: nat, world: T.World)
    requires View(w, ts, now) && InMain(w) && w.loop.Passing? && Enabled(w, Fire(id)) && Timely(w, Fire(id))
    requires w.timers[id].proc.Calls? && forall a :: a in calls ==> TimerCall(a)
    requires world(k, id) == T.Reaction(OpsOf(calls), w.timers[id].proc.period)
    ensures Schedule(w, Callback(id, calls))
    ensures if T.Harmless(id, world(k, id))
            then exists v, u :: && Run(w, Callback(id, calls)) == Ok(v) && v.loop == w.loop && View(v, u, now)
                                && Turns.Turn(ts, u, id, w.loop.maxId, k, now, world)
            else Run(w, Callback(id, calls)) == FreedTimer(id) && Turns.Breaks(ts, w.loop.maxId, k, now, world)
  {
    var w1 := w.(loop := Firing(w.loop.maxId, id, w.timers[id].proc));
    var w2 := CallsAgree(w1, ts, now, calls);
    ScheduleOn(w1, calls, w2, FireDone);
    RunCons(w, Fire(id), w1, calls + [FireDone]);
    PassPicks(w, ts, now, id);
    HarmlessIsNotFreed(ts, now, id, world(k, id));
    FinishAgrees(w2, T.ApplyAll(ts, now, OpsOf(calls)), now);
    if T.Harmless(id, world(k, id)) {
      var v, u := Step(w2, FireDone).w, T.Fire(ts, id, now, world(k, id));
      assert View(v, u, now);
    }
  }

  // ----- in every run ------------------------------------------------------------------

  ghost predicate Viewed(w: World) {
    exists ts, now :: View(w, ts, now)
  }

  /** The timers are as they were, or there is one more. */
  ghost predicate SameOrArmed(w: World, v: World) {
    && v.now == w.now
    && (|| (v.timers == w.timers && v.nextTimer == w.nextTimer)
        || exists proc, delay :: v.timers == ArmTimer(w, proc, delay).timers && v.nextTimer == w.nextTimer + 1)
  }

  lemma UseArms(w: World, ch: int, e: C.Event, timeout: int)
    requires UseChannel(w, ch, e, timeout).Ok?
    ensures SameOrArmed(w, UseChannel(w, ch, e, timeout).w)
  {
    var v, s := UseChannel(w, ch, e, timeout).w, C.Next(w.chans[ch], e);
    if Self(w) in s.waiting && timeout > 0 {
      assert v.timers == ArmTimer(w, Wakes(Self(w)), timeout).timers;
    } else {
      assert v.timers == w.timers && v.nextTimer == w.nextTimer;
    }
  }

  lemma ChannelsArm(w: World, a: Action)
    requires Enabled(w, a) && Step(w, a).Ok? && (a.Push? || a.Pop? || a.Land?)
    ensures SameOrArmed(w, Step(w, a).w)
  {
    match a {
      case Push(ch, d, timeout) => UseArms(w, ch, C.CallPush(Self(w), d), timeout);
      case Pop(ch, timeout) => UseArms(w, ch, C.CallPop(Self(w)), timeout);
      case Land => UseArms(w.(block := w.block[Self(w) := Ready]), w.block[Self(w)].ch, C.Land, 0);
    }
  }

  lemma StepArms(w: World, a: Action)
    requires Enabled(w, a) && Step(w, a).Ok? && !a.CancelTimer? && !a.FireDone? && !a.Tick?
    ensures SameOrArmed(w, Step(w, a).w)
  {
    if a.Push? || a.Pop? || a.Land? {
      ChannelsArm(w, a);
    } else if a.Sleep? {
      assert Step(w, a).w.timers == ArmTimer(w, Wakes(Self(w)), a.delay).timers;
    } else if a.StartTimer? {
      assert Step(w, a).w.timers == ArmTimer(w, Calls(a.period), a.delay).timers;
    }
  }

  lemma ViewOfTimers(w: World, v: World, ts: T.Timers, now: T.Clock)
    requires View(w, ts, now) && v.timers == w.timers && v.nextTimer == w.nextTimer && v.now == w.now
    ensures View(v, ts, now)
  {
  }

  lemma ViewStep(w: World, a: Action)
    requires Viewed(w) && Enabled(w, a) && Step(w, a).Ok?
    ensures Viewed(Step(w, a).w)
  {
    var v := Step(w, a).w;
    var ts, now :| View(w, ts, now);
    if a.CancelTimer? {
      CancelIsRemove(w, ts, now, a.id);
    } else if a.Tick? {
      TickIsLater(w, ts, now, a.ms);
    } else if a.FireDone? {
      FinishAgrees(w, ts, now);
      ViewOfTimers(w.(timers := AfterCallback(w)), v, Finished(ts, w.loop.id, now, Ret(w.loop.proc)), now);
    } else {
      StepArms(w, a);
      ArmedIsViewed(w, v, ts, now);
    }
  }

  lemma ArmedIsViewed(w: World, v: World, ts: T.Timers, now: T.Clock)
    requires View(w, ts, now) && SameOrArmed(w, v)
    ensures Viewed(v)
  {
    if v.timers == w.timers && v.nextTimer == w.nextTimer {
      ViewOfTimers(w, v, ts, now);
    } else {
      var proc, delay :| v.timers == ArmTimer(w, proc, delay).timers && v.nextTimer == w.nextTimer + 1;
      ArmIsAdd(w, ts, now, proc, delay, true);
      ViewOfTimers(ArmTimer(w, proc, delay), v, T.Add(ts, now, delay, true), now);
    }
  }

  lemma {:induction false} ViewRun(w: World, steps: seq<Action>)
    requires Schedule(w, steps)
    ensures Viewed(w) && Run(w, steps).Ok? ==> Viewed(Run(w, steps).w)
    decreases |steps|
  {
    if steps != [] && Step(w, steps[0]).Ok? {
      if Viewed(w) { ViewStep(w, steps[0]); }
      ViewRun(Step(w, steps[0]).w, steps[1..]);
    }
  }

  /** In every run of any code the timers of the machine are a timer list. */
  lemma AlwaysViewed(w: World, steps: seq<Action>)
    requires Start(w) && Schedule(w, steps) && Run(w, steps).Ok?
    ensures Viewed(Run(w, steps).w)
  {
    var ts, now := T.Timers([], 0, 0, [], []), T.Clock(w.now / 1000, w.now % 1000);
    assert T.Accounts(ts) && View(w, ts, now);
    ViewRun(w, steps);
  }

  // ----- descriptors -------------------------------------------------------------------

  function Get<K, V>(m: map<K, V>, k: K): V
    requires k in m
  {
    m[k]
  }

  lemma PutIs<K, V>(m: map<K, V>, k: K, v: V, x: K)
    ensures x in m[k := v] <==> x == k || x in m
    ensures x in m[k := v] ==> Get(m[k := v], x) == if x == k then v else Get(m, x)
  {
  }

  lemma MinusIs<K, V>(m: map<K, V>, k: K, x: K)
    ensures x in m - {k} <==> x in m && x != k
    ensures x in m - {k} ==> Get(m - {k}, x) == Get(m, x)
  {
  }

  /** `fd` is registered with the pair of itself and the coroutine that waits for it; `num`
      reads 32 bits as a number. */
  ghost predicate Pair(poll: Poll, registered: map<P.Int32, bv64>, num: P.Int32 -> int, fd: P.Int32)
    requires poll.Open? && fd in registered && num(fd) in poll.registered
  {
    && Get(registered, fd) == P.ToUint64(fd, P.IdOf(Get(registered, fd)))
    && num(P.IdOf(Get(registered, fd))) == poll.registered[num(fd)]
  }

  /** `registered` are the registrations of `poll`. */
  ghost predicate PollView(poll: Poll, registered: map<P.Int32, bv64>, num: P.Int32 -> int) {
    && poll.Open?
    && (forall fd {:trigger num(fd)} :: fd in registered <==> num(fd) in poll.registered)
    && (forall fd {:trigger Pair(poll, registered, num, fd)} :: fd in registered ==> Pair(poll, registered, num, fd))
  }

  ghost predicate Injective(num: P.Int32 -> int) {
    forall a, b {:trigger num(a), num(b)} :: num(a) == num(b) ==> a == b
  }

  function Numbers(xs: seq<P.Int32>, num: P.Int32 -> int): (ns: seq<int>)
    ensures |ns| == |xs| && forall i :: 0 <= i < |xs| ==> ns[i] == num(xs[i])
  {
    seq(|xs|, i requires 0 <= i < |xs| => num(xs[i]))
  }

  /** What the dispatch loop unpacks from the reports are the coroutines that the machine
      goes on to resume, in that order. */
  lemma ReportsAgree(
      w: World, registered: map<P.Int32, bv64>, num: P.Int32 -> int, fds: seq<P.Int32>, ids: seq<P.Int32>)
    requires w.poll.Open? && PollView(w.poll, registered, num) && Enabled(w, Reported(Numbers(fds, num)))
    requires |ids| == |fds| && forall i :: 0 <= i < |fds| ==> fds[i] in registered
    requires forall i :: 0 <= i < |fds| ==> Get(registered, fds[i]) == P.ToUint64(fds[i], ids[i])
    ensures Step(w, Reported(Numbers(fds, num))).w.loop == Dispatching(Numbers(ids, num))
  {
    var rest := Step(w, Reported(Numbers(fds, num))).w.loop.rest;
    forall i | 0 <= i < |rest| ensures rest[i] == Numbers(ids, num)[i] {
      assert Pair(w.poll, registered, num, fds[i]);
      P.RoundTrip(fds[i], ids[i]);
      assert Numbers(fds, num)[i] == num(fds[i]);
    }
  }

  lemma WaitPairs(poll: Poll, registered: map<P.Int32, bv64>, num: P.Int32 -> int, fd: P.Int32, id: P.Int32)
    requires PollView(poll, registered, num) && Injective(num) && fd !in registered
    ensures PollView(Registered(poll, num(fd), num(id)), registered[fd := P.ToUint64(fd, id)], num)
  {
    var p, after := Registered(poll, num(fd), num(id)), registered[fd := P.ToUint64(fd, id)];
    forall x ensures x in after <==> num(x) in p.registered {
      PutIs(registered, fd, P.ToUint64(fd, id), x);
    }
    P.RoundTrip(fd, id);
    forall x | x in after ensures Pair(p, after, num, x) {
      PutIs(registered, fd, P.ToUint64(fd, id), x);
      if x != fd {
        assert Pair(poll, registered, num, x);
      }
    }
  }

  /** A wait for a descriptor does the same to both. */
  lemma WaitAgrees(poll: Poll, registered: map<P.Int32, bv64>, num: P.Int32 -> int, fd: P.Int32, id: P.Int32)
    requires PollView(poll, registered, num) && Injective(num)
    ensures PollView(Registered(poll, num(fd), num(id)), P.Registered(registered, [P.Wait(fd, id)]), num)
  {
    assert P.Registered(registered, []) == registered && [P.Wait(fd, id)][..0] == [];
    if fd in registered {
      assert Registered(poll, num(fd), num(id)).registered == poll.registered;
      forall x | x in registered ensures Pair(Registered(poll, num(fd), num(id)), registered, num, x) {
        assert Pair(poll, registered, num, x);
      }
    } else {
      WaitPairs(poll, registered, num, fd, id);
    }
  }

  /** And so does the end of the wait. */
  lemma ForgetAgrees(poll: Poll, registered: map<P.Int32, bv64>, num: P.Int32 -> int, fd: P.Int32)
    requires PollView(poll, registered, num) && Injective(num)
    ensures PollView(Forgotten(poll, num(fd)), registered - {fd}, num)
  {
    var p, after := Forgotten(poll, num(fd)), registered - {fd};
    forall x ensures x in after <==> num(x) in p.registered {
      MinusIs(registered, fd, x);
    }
    forall x | x in after ensures Pair(p, after, num, x) {
      MinusIs(registered, fd, x);
      assert Pair(poll, registered, num, x);
    }
  }
}

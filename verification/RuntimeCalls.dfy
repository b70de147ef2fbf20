/** What the calls made in a run add up to, read off its steps alone: the data given to each
    channel, and the waits for descriptors that have been counted. */
module RuntimeCalls {
  import C = ChannelSpec
  import opened Runtime
  import opened RuntimeRuns

  // ----- channels ----------------------------------------------------------------------

  function GivenBy(a: Action, ch: int): seq<C.Datum> {
    if a.Push? && a.ch == ch then [a.d] else []
  }

  /** The data given to channel `ch` by calls of push, in call order. */
  function GivenIn(steps: seq<Action>, ch: int): seq<C.Datum> {
    if steps == [] then [] else GivenBy(steps[0], ch) + GivenIn(steps[1..], ch)
  }

  /** How often pop has been called on it. */
  function PopsIn(steps: seq<Action>, ch: int): nat {
    if steps == [] then 0 else (if steps[0].Pop? && steps[0].ch == ch then 1 else 0) + PopsIn(steps[1..], ch)
  }

  /** What a world has noted of the calls on a channel; nothing before the channel is made. */
  function Noted(w: World, ch: int): (seq<C.Datum>, nat) {
    if ch in w.chans then (w.chans[ch].pushes, w.chans[ch].pops) else ([], 0)
  }

  ghost predicate SameCalls(w: World, v: World) {
    w.chans.Keys <= v.chans.Keys
    && (forall ch {:trigger Noted(v, ch)} :: Noted(v, ch) == Noted(w, ch))
    && (forall ch {:trigger v.chans[ch]} :: ch in w.chans ==> v.chans[ch].chan.capacity == w.chans[ch].chan.capacity)
  }

  lemma ResumeCalls(w: World, c: int)
    requires Resume(w, c).Ok?
    ensures SameCalls(w, Resume(w, c).w)
  {
  }

  lemma AfterChannelCalls(w: World, ch: int, s: C.Sys, c: int, timeout: int)
    requires AfterChannel(w, ch, s, c, timeout).Ok?
    ensures SameCalls(w.(chans := w.chans[ch := s]), AfterChannel(w, ch, s, c, timeout).w)
  {
    var u := w.(chans := w.chans[ch := s.(landing := C.None)]);
    if c !in s.waiting && s.landing.Some? { ResumeCalls(u, s.landing.value); }
  }

  lemma EventCalls(s: C.Sys, e: C.Event)
    requires C.Enabled(s, e)
    ensures C.Next(s, e).chan.capacity == s.chan.capacity
    ensures C.Next(s, e).pushes == s.pushes + C.BroughtBy(e) && C.Next(s, e).pops == s.pops + |C.PopperOf(e)|
  {
    C.CallIs(s, e);
  }

  /** What a step notes of channel `ch`. */
  ghost predicate Notes(w: World, v: World, a: Action, ch: int) {
    && Noted(v, ch).0 == Noted(w, ch).0 + GivenBy(a, ch)
    && Noted(v, ch).1 == Noted(w, ch).1 + (if a.Pop? && a.ch == ch then 1 else 0)
    && (ch in w.chans ==> ch in v.chans && v.chans[ch].chan.capacity == w.chans[ch].chan.capacity)
    && (ch !in w.chans && ch in v.chans ==> a == NewChannel(ch, v.chans[ch].chan.capacity))
  }

  lemma UseNotes(w: World, on: int, e: C.Event, timeout: int, ch: int)
    requires UseChannel(w, on, e, timeout).Ok?
    ensures var v := UseChannel(w, on, e, timeout).w;
            && Noted(v, ch).0 == Noted(w, ch).0 + (if on == ch then C.BroughtBy(e) else [])
            && Noted(v, ch).1 == Noted(w, ch).1 + (if on == ch then |C.PopperOf(e)| else 0)
            && (ch in w.chans <==> ch in v.chans)
            && (ch in w.chans ==> v.chans[ch].chan.capacity == w.chans[ch].chan.capacity)
  {
    EventCalls(w.chans[on], e);
    AfterChannelCalls(w, on, C.Next(w.chans[on], e), Self(w), timeout);
    assert Noted(w, ch).0 + [] == Noted(w, ch).0;
  }

  lemma ChannelNotes(w: World, a: Action, ch: int)
    requires Enabled(w, a) && Step(w, a).Ok? && (a.Push? || a.Pop? || a.Land?)
    ensures Notes(w, Step(w, a).w, a, ch)
  {
    assert Noted(w, ch).0 + [] == Noted(w, ch).0;
    match a {
      case Push(on, d, timeout) => UseNotes(w, on, C.CallPush(Self(w), d), timeout, ch);
      case Pop(on, timeout) => UseNotes(w, on, C.CallPop(Self(w)), timeout, ch);
      case Land => UseNotes(w.(block := w.block[Self(w) := Ready]), w.block[Self(w)].ch, C.Land, 0, ch);
    }
  }

  lemma ResumingNotes(w: World, a: Action, ch: int)
    requires Enabled(w, a) && Step(w, a).Ok? && (a.UserResume? || a.DispatchNext? || a.Fire?)
    ensures Notes(w, Step(w, a).w, a, ch)
  {
    assert Noted(w, ch).0 + [] == Noted(w, ch).0;
    match a {
      case UserResume(c) => if c in w.yielded { ResumeCalls(w.(yielded := w.yielded - {c}), c); }
      case DispatchNext => ResumeCalls(w.(loop := Dispatching(w.loop.rest[1..])), w.loop.rest[0]);
      case Fire(id) =>
        var proc := w.timers[id].proc;
        if proc.Wakes? { ResumeCalls(w.(loop := Firing(w.loop.maxId, id, proc)), proc.cid); }
    }
  }

  lemma OtherNotes(w: World, a: Action, ch: int)
    requires Enabled(w, a) && Step(w, a).Ok?
    requires !(a.Push? || a.Pop? || a.Land? || a.UserResume? || a.DispatchNext? || a.Fire?)
    ensures Notes(w, Step(w, a).w, a, ch)
  {
    assert Noted(w, ch).0 + [] == Noted(w, ch).0;
  }

  lemma StepNotes(w: World, a: Action, ch: int)
    requires Enabled(w, a) && Step(w, a).Ok?
    ensures Notes(w, Step(w, a).w, a, ch)
  {
    if a.Push? || a.Pop? || a.Land? { ChannelNotes(w, a, ch); }
    else if a.UserResume? || a.DispatchNext? || a.Fire? { ResumingNotes(w, a, ch); }
    else { OtherNotes(w, a, ch); }
  }

  lemma {:induction false} RunNotes(w: World, steps: seq<Action>, ch: int)
    requires Schedule(w, steps) && Run(w, steps).Ok?
    ensures var v := Run(w, steps).w;
            && Noted(v, ch).0 == Noted(w, ch).0 + GivenIn(steps, ch)
            && Noted(v, ch).1 == Noted(w, ch).1 + PopsIn(steps, ch)
            && (ch in w.chans ==> ch in v.chans && v.chans[ch].chan.capacity == w.chans[ch].chan.capacity)
            && (ch !in w.chans && ch in v.chans ==> NewChannel(ch, v.chans[ch].chan.capacity) in steps)
    decreases |steps|
  {
    if steps == [] {
      assert Noted(w, ch).0 + [] == Noted(w, ch).0;
    } else {
      var u := Step(w, steps[0]).w;
      StepNotes(w, steps[0], ch);
      RunNotes(u, steps[1..], ch);
      C.Assoc(Noted(w, ch).0, GivenBy(steps[0], ch), GivenIn(steps[1..], ch));
    }
  }

  /** In every disciplined run, whatever else goes on, each channel serves its calls in call
      order, and its calls alone determine it: pop i has returned the datum of push i, no push
      has failed, and what it holds and who waits follow from how many there were of each, as
      soon as nobody that has been woken is under way. */
  lemma ChannelsInOrder(w: World, steps: seq<Action>, ch: int)
    requires Start(w) && DisciplinedSchedule(w, steps) && Run(w, steps).Ok? && ch in Run(w, steps).w.chans
    ensures var s, given := Run(w, steps).w.chans[ch], GivenIn(steps, ch);
            && NewChannel(ch, s.chan.capacity) in steps && |s.chan.data| <= s.chan.capacity
            && (forall i :: i in s.got ==> i < |given| && s.got[i] == C.Some(given[i]))
            && (forall i :: i in s.sent ==> i < |given| && s.sent[i])
            && (s.landing == C.None ==> C.Settled(s, given, PopsIn(steps, ch)))
  {
    StartIsGood(w);
    InvRun(w, steps);
    RunNotes(w, steps, ch);
    var s := Run(w, steps).w.chans[ch];
    assert [] + GivenIn(steps, ch) == GivenIn(steps, ch);
    assert C.Inv(s) && s.pushes == GivenIn(steps, ch) && s.pops == PopsIn(steps, ch);
    if s.landing == C.None { C.InvSettles(s); }
  }

  // ----- waits for descriptors ---------------------------------------------------------

  function Counted(poll: Poll): int {
    if poll.Open? then poll.eventNum else 0
  }

  /** The calls of wait_event since the poll was last closed, `n` of them before `steps`. */
  ghost function WaitsSince(w: World, steps: seq<Action>, n: nat): nat
    requires Schedule(w, steps) && Run(w, steps).Ok?
    decreases |steps|
  {
    if steps == [] then n
    else
      var v := Step(w, steps[0]).w;
      WaitsSince(v, steps[1..], if v.poll == Closed then 0 else if steps[0].WaitEvent? then n + 1 else n)
  }

  lemma ChannelCounts(w: World, a: Action)
    requires Enabled(w, a) && Step(w, a).Ok? && (a.Push? || a.Pop? || a.Land?)
    ensures Counted(Step(w, a).w.poll) == Counted(w.poll) && (Step(w, a).w.poll == Closed <==> w.poll == Closed)
  {
    match a {
      case Push(ch, d, timeout) => UseCounts(w, ch, C.CallPush(Self(w), d), timeout);
      case Pop(ch, timeout) => UseCounts(w, ch, C.CallPop(Self(w)), timeout);
      case Land => UseCounts(w.(block := w.block[Self(w) := Ready]), w.block[Self(w)].ch, C.Land, 0);
    }
  }

  lemma UseCounts(w: World, ch: int, e: C.Event, timeout: int)
    requires UseChannel(w, ch, e, timeout).Ok?
    ensures var v := UseChannel(w, ch, e, timeout).w;
            Counted(v.poll) == Counted(w.poll) && (v.poll == Closed <==> w.poll == Closed)
  {
  }

  lemma StepCounts(w: World, a: Action)
    requires Enabled(w, a) && Step(w, a).Ok?
    ensures var v := Step(w, a).w;
            Counted(v.poll) == if v.poll == Closed then 0 else Counted(w.poll) + (if a.WaitEvent? then 1 else 0)
  {
    if a.Push? || a.Pop? || a.Land? { ChannelCounts(w, a); }
  }

  lemma {:induction false} RunCounts(w: World, steps: seq<Action>)
    requires Schedule(w, steps) && Run(w, steps).Ok? && Counted(w.poll) >= 0
    ensures Counted(Run(w, steps).w.poll) == WaitsSince(w, steps, Counted(w.poll))
    decreases |steps|
  {
    if steps != [] {
      StepCounts(w, steps[0]);
      RunCounts(Step(w, steps[0]).w, steps[1..]);
    }
  }

  /** In every run of any code the counter is the number of calls of wait_event since the poll
      was last closed, whatever has become of those who called. */
  lemma CounterIsCalls(w: World, steps: seq<Action>)
    requires Start(w) && Schedule(w, steps) && Run(w, steps).Ok? && Run(w, steps).w.poll.Open?
    ensures Run(w, steps).w.poll.eventNum == WaitsSince(w, steps, 0)
  {
    RunCounts(w, steps);
  }
}

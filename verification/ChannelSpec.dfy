/** The bounded channel on values: what each uninterrupted stretch of `push` and `pop` does
    to the three queues, and what that adds up to over whole runs.

    `push` and `pop` are cut where they yield.  A call runs up to the yield or, when it need
    not wait, to its end; a resumed call continues behind the yield.  In both cases nothing
    touches the channel after the peer at the head of the other queue has been resumed. */
module ChannelSpec {

  /** Data are addresses of values. */
  type Datum = int

  datatype Option = None | Some(value: int)

  datatype Chan = Chan(capacity: nat, data: seq<Datum>, producers: seq<int>, consumers: seq<int>)

  datatype PushResult = Waits | Refused | Accepted(wake: Option)

  datatype PopResult = Sleeps | Nothing | Got(datum: Datum, wake: Option)

  predicate Full(c: Chan) {
    |c.data| == c.capacity
  }

  /** The part of `push` behind the wait. */
  function PushRest(c: Chan, d: Datum): (Chan, PushResult) {
    if Full(c) then (c, Refused)
    else if c.consumers == [] then (c.(data := c.data + [d]), Accepted(None))
    else (c.(data := c.data + [d], consumers := c.consumers[1..]), Accepted(Some(c.consumers[0])))
  }

  function PushCall(c: Chan, co: int, d: Datum): (Chan, PushResult) {
    if Full(c) then (c.(producers := c.producers + [co]), Waits) else PushRest(c, d)
  }

  /** The part of `pop` behind the wait. */
  function PopRest(c: Chan): (Chan, PopResult) {
    if c.data == [] then (c, Nothing)
    else if c.producers == [] then (c.(data := c.data[1..]), Got(c.data[0], None))
    else (c.(data := c.data[1..], producers := c.producers[1..]), Got(c.data[0], Some(c.producers[0])))
  }

  function PopCall(c: Chan, co: int): (Chan, PopResult) {
    if c.data == [] then (c.(consumers := c.consumers + [co]), Sleeps) else PopRest(c)
  }

  function PopData(c: Chan): (Chan, Option) {
    if c.data == [] then (c, None) else (c.(data := c.data[1..]), Some(c.data[0]))
  }

  // ----- any schedule ------------------------------------------------------------------

  /** One uninterrupted stretch.  Nothing is assumed about when a waiting call goes on: a
      peer, a timer or anything else may have resumed it, with its queue entry left behind. */
  datatype Stretch =
    | PushCalled(co: int, d: Datum)
    | PushResumed(d: Datum)
    | PopCalled(co: int)
    | PopResumed
    | DataPopped

  datatype Ledger = Ledger(chan: Chan, accepted: seq<Datum>, taken: seq<Datum>)

  function Enter(l: Ledger, s: Stretch): Ledger {
    match s
    case PushCalled(co, d) => Pushed(l, PushCall(l.chan, co, d), d)
    case PushResumed(d) => Pushed(l, PushRest(l.chan, d), d)
    case PopCalled(co) => Popped(l, PopCall(l.chan, co))
    case PopResumed => Popped(l, PopRest(l.chan))
    case DataPopped =>
      var (c, r) := PopData(l.chan);
      Ledger(c, l.accepted, if r.Some? then l.taken + [r.value] else l.taken)
  }

  function Pushed(l: Ledger, r: (Chan, PushResult), d: Datum): Ledger {
    Ledger(r.0, if r.1.Accepted? then l.accepted + [d] else l.accepted, l.taken)
  }

  function Popped(l: Ledger, r: (Chan, PopResult)): Ledger {
    Ledger(r.0, l.accepted, if r.1.Got? then l.taken + [r.1.datum] else l.taken)
  }

  function EnterAll(l: Ledger, ss: seq<Stretch>): Ledger
    decreases |ss|
  {
    if ss == [] then l else EnterAll(Enter(l, ss[0]), ss[1..])
  }

  /** Whatever the schedule, timed waits and stray wake-ups included: the channel never
      holds more than its capacity, and the values handed out followed by those it holds
      are exactly the values of the pushes that returned true, in that order. */
  lemma {:induction false} Conservation(l: Ledger, ss: seq<Stretch>)
    requires |l.chan.data| <= l.chan.capacity && l.taken + l.chan.data == l.accepted
    ensures var m := EnterAll(l, ss);
            && m.chan.capacity == l.chan.capacity
            && |m.chan.data| <= m.chan.capacity
            && m.taken + m.chan.data == m.accepted
            && l.accepted <= m.accepted && l.taken <= m.taken
    decreases |ss|
  {
    if ss != [] {
      var m := Enter(l, ss[0]);
      if l.chan.data != [] {
        assert l.taken + [l.chan.data[0]] + l.chan.data[1..] == l.taken + l.chan.data;
      }
      assert m.taken + m.chan.data == m.accepted;
      Conservation(m, ss[1..]);
    }
  }

  /** What each stretch hands in or out, and whom it wakes, in terms of the channel before
      it: a push is accepted exactly if there is room, a pop gets the first datum if there is
      one, and either then takes the first waiter from the other queue; what finds it must
      wait joins its own queue, or, if it has waited already, gives up.  The data that a user
      asks for without waiting is the first, and nobody is woken. */
  lemma StretchIs(l: Ledger, s: Stretch)
    ensures var c, m := l.chan, Enter(l, s);
            var pushes, pops := s.PushCalled? || s.PushResumed?, s.PopCalled? || s.PopResumed?;
            var room, some := |c.data| != c.capacity, c.data != [];
            && m.chan.capacity == c.capacity
            && m.accepted == l.accepted + (if pushes && room then [s.d] else [])
            && m.taken == l.taken + (if !pushes && some then c.data[..1] else [])
            && m.chan.data ==
               (if pushes && room then c.data + [s.d] else if !pushes && some then c.data[1..] else c.data)
            && m.chan.consumers == (if pushes && room && c.consumers != [] then c.consumers[1..]
                                    else if s.PopCalled? && !some then c.consumers + [s.co] else c.consumers)
            && m.chan.producers == (if pops && some && c.producers != [] then c.producers[1..]
                                    else if s.PushCalled? && !room then c.producers + [s.co] else c.producers)
  {
    assert l.accepted + [] == l.accepted && l.taken + [] == l.taken;
    assert l.chan.data != [] ==> l.chan.data[..1] == [l.chan.data[0]];
  }

  // ----- untimed runs ------------------------------------------------------------------

  /** A call that waits: which push or which pop it is, counted from 0. */
  datatype Pending = Pushing(call: nat, datum: Datum) | Popping(call: nat)

  /** A channel used without timeouts.  `landing` is a waiter that has been resumed and has
      not gone on yet; because a resume transfers control, it is the next to use the channel. */
  datatype Sys = Sys(
    chan: Chan,
    waiting: map<int, Pending>,
    landing: Option,
    pushes: seq<Datum>,                 // the data of all push calls, in call order
    pops: nat,                      // the number of pop calls
    sent: map<nat, bool>,           // what push calls have returned
    got: map<nat, Option>)       // what pop calls have returned

  datatype Event = CallPush(co: int, d: Datum) | CallPop(co: int) | Land

  function Fresh(capacity: nat): Sys {
    Sys(Chan(capacity, [], [], []), map[], None, [], 0, map[], map[])
  }

  predicate Enabled(s: Sys, e: Event) {
    match e
    case CallPush(co, _) => s.landing == None && co !in s.waiting
    case CallPop(co) => s.landing == None && co !in s.waiting
    case Land => s.landing.Some? && s.landing.value in s.waiting
  }

  function AfterPush(s: Sys, co: int, call: nat, d: Datum, r: (Chan, PushResult)): Sys {
    match r.1
    case Waits => s.(chan := r.0, waiting := s.waiting[co := Pushing(call, d)])
    case Refused => s.(chan := r.0, sent := s.sent[call := false])
    case Accepted(wake) => s.(chan := r.0, landing := wake, sent := s.sent[call := true])
  }

  function AfterPop(s: Sys, co: int, call: nat, r: (Chan, PopResult)): Sys {
    match r.1
    case Sleeps => s.(chan := r.0, waiting := s.waiting[co := Popping(call)])
    case Nothing => s.(chan := r.0, got := s.got[call := None])
    case Got(d, wake) => s.(chan := r.0, landing := wake, got := s.got[call := Some(d)])
  }

  function Next(s: Sys, e: Event): Sys
    requires Enabled(s, e)
  {
    match e
    case CallPush(co, d) =>
      AfterPush(s.(pushes := s.pushes + [d]), co, |s.pushes|, d, PushCall(s.chan, co, d))
    case CallPop(co) =>
      AfterPop(s.(pops := s.pops + 1), co, s.pops, PopCall(s.chan, co))
    case Land =>
      var co := s.landing.value;
      var t := s.(waiting := s.waiting - {co}, landing := None);
      match s.waiting[co]
      case Pushing(call, d) => AfterPush(t, co, call, d, PushRest(s.chan, d))
      case Popping(call) => AfterPop(t, co, call, PopRest(s.chan))
  }

  /** The waiters of each kind in the order they will be served, the landing one first. */
  ghost function Producers(s: Sys): seq<int> {
    if s.landing.Some? && s.landing.value in s.waiting && s.waiting[s.landing.value].Pushing?
    then [s.landing.value] + s.chan.producers else s.chan.producers
  }

  ghost function Consumers(s: Sys): seq<int> {
    if s.landing.Some? && s.landing.value in s.waiting && s.waiting[s.landing.value].Popping?
    then [s.landing.value] + s.chan.consumers else s.chan.consumers
  }

  ghost predicate Queues(s: Sys) {
    && s.chan.capacity >= 1
    && |s.chan.data| <= s.chan.capacity
    && (match s.landing
        case None =>
          && (s.chan.consumers != [] ==> s.chan.data == [] && s.chan.producers == [])
          && (s.chan.producers != [] ==> Full(s.chan))
        case Some(co) =>
          co in s.waiting &&
          if s.waiting[co].Pushing? then s.chan.consumers == [] && |s.chan.data| == s.chan.capacity - 1
          else s.chan.producers == [] && |s.chan.data| == 1)
  }

  /** Calls are served strictly in call order: of the push calls, the first `served + |data|`
      have gone through, the rest wait in line; of the pop calls, the first `served` have
      obtained the datum of the push call of the same number, the rest wait in line. */
  ghost predicate InOrder(s: Sys, producers: seq<int>, consumers: seq<int>) {
    var served := s.pops - |consumers|;
    var through := served + |s.chan.data|;
    && 0 <= served
    && |s.pushes| == through + |producers|
    && (forall j :: 0 <= j < |s.chan.data| ==> s.chan.data[j] == s.pushes[served + j])
    && (forall j {:trigger producers[j]} :: 0 <= j < |producers| ==>
          producers[j] in s.waiting && s.waiting[producers[j]] == Pushing(through + j, s.pushes[through + j]))
    && (forall j {:trigger consumers[j]} :: 0 <= j < |consumers| ==>
          consumers[j] in s.waiting && s.waiting[consumers[j]] == Popping(served + j))
    && (forall i {:trigger i in s.got} :: i in s.got <==> 0 <= i < served)
    && (forall i {:trigger s.got[i]} :: 0 <= i < served ==> i in s.got && s.got[i] == Some(s.pushes[i]))
    && (forall i {:trigger i in s.sent} :: i in s.sent <==> 0 <= i < through)
    && (forall i {:trigger s.sent[i]} :: 0 <= i < through ==> i in s.sent && s.sent[i])
  }

  ghost predicate Queued(co: int, producers: seq<int>, consumers: seq<int>) {
    co in producers || co in consumers
  }

  ghost predicate AllQueued(s: Sys, producers: seq<int>, consumers: seq<int>) {
    forall co {:trigger Queued(co, producers, consumers)} :: co in s.waiting ==> Queued(co, producers, consumers)
  }

  ghost predicate Inv(s: Sys) {
    Queues(s) && InOrder(s, Producers(s), Consumers(s)) && AllQueued(s, Producers(s), Consumers(s))
  }

  /** If the calls that wait changed only by `one`, and the queues lost no other, then
      everyone that waits is still in a queue. */
  lemma StillQueued(s: Sys, t: Sys, one: int)
    requires AllQueued(s, Producers(s), Consumers(s))
    requires forall co :: co in t.waiting && co != one ==> co in s.waiting
    requires forall co :: co in Producers(s) && co != one ==> co in Producers(t)
    requires forall co :: co in Consumers(s) && co != one ==> co in Consumers(t)
    requires one in t.waiting ==> one in Producers(t) || one in Consumers(t)
    ensures AllQueued(t, Producers(t), Consumers(t))
  {
    forall co | co in t.waiting ensures Queued(co, Producers(t), Consumers(t)) {
      assert co in s.waiting ==> Queued(co, Producers(s), Consumers(s));
    }
  }

  lemma InvFresh(capacity: nat)
    requires capacity >= 1
    ensures Inv(Fresh(capacity))
  {
  }

  lemma InvNext(s: Sys, e: Event)
    requires Inv(s) && Enabled(s, e)
    ensures Inv(Next(s, e))
  {
    match e {
      case CallPush(co, d) =>
        if Full(s.chan) { InvPushWaits(s, co, d); }
        else if s.chan.consumers == [] { InvPushPasses(s, co, d); }
        else { InvPushWakes(s, co, d); }
      case CallPop(co) =>
        if s.chan.data == [] { InvPopWaits(s, co); }
        else if s.chan.producers == [] { InvPopPasses(s, co); }
        else { InvPopWakes(s, co); }
      case Land =>
        if s.waiting[s.landing.value].Pushing? { InvLandPush(s); } else { InvLandPop(s); }
    }
  }

  lemma InvPushWaits(s: Sys, co: int, d: Datum)
    requires Inv(s) && Enabled(s, CallPush(co, d)) && Full(s.chan)
    ensures Inv(Next(s, CallPush(co, d)))
  {
    var t := Next(s, CallPush(co, d));
    assert InOrder(t, s.chan.producers + [co], s.chan.consumers);
    StillQueued(s, t, co);
  }

  lemma InvPushPasses(s: Sys, co: int, d: Datum)
    requires Inv(s) && Enabled(s, CallPush(co, d)) && !Full(s.chan) && s.chan.consumers == []
    ensures Inv(Next(s, CallPush(co, d)))
  {
    var t := Next(s, CallPush(co, d));
    assert InOrder(t, [], []);
    StillQueued(s, t, co);
  }

  lemma InvPushWakes(s: Sys, co: int, d: Datum)
    requires Inv(s) && Enabled(s, CallPush(co, d)) && !Full(s.chan) && s.chan.consumers != []
    ensures Inv(Next(s, CallPush(co, d)))
  {
    var t := Next(s, CallPush(co, d));
    assert InOrder(t, [], s.chan.consumers);
    assert Consumers(t) == s.chan.consumers;
    StillQueued(s, t, co);
  }

  lemma InvPopWaits(s: Sys, co: int)
    requires Inv(s) && Enabled(s, CallPop(co)) && s.chan.data == []
    ensures Inv(Next(s, CallPop(co)))
  {
    var t := Next(s, CallPop(co));
    assert InOrder(t, s.chan.producers, s.chan.consumers + [co]);
    StillQueued(s, t, co);
  }

  lemma InvPopPasses(s: Sys, co: int)
    requires Inv(s) && Enabled(s, CallPop(co)) && s.chan.data != [] && s.chan.producers == []
    ensures Inv(Next(s, CallPop(co)))
  {
    var t := Next(s, CallPop(co));
    assert InOrder(t, [], []);
    StillQueued(s, t, co);
  }

  lemma InvPopWakes(s: Sys, co: int)
    requires Inv(s) && Enabled(s, CallPop(co)) && s.chan.data != [] && s.chan.producers != []
    ensures Inv(Next(s, CallPop(co)))
  {
    var t := Next(s, CallPop(co));
    assert InOrder(t, s.chan.producers, []);
    assert Producers(t) == s.chan.producers;
    StillQueued(s, t, co);
  }

  lemma LandedPush(s: Sys)
    requires Inv(s) && Enabled(s, Land) && s.waiting[s.landing.value].Pushing?
    ensures var t := Next(s, Land);
            t.landing == None && t.chan.producers == s.chan.producers && InOrder(t, s.chan.producers, [])
  {
    var t, ps := Next(s, Land), Producers(s);
    assert ps[0] == s.landing.value;
    var call := s.pops + |s.chan.data|;
    assert s.waiting[ps[0]] == Pushing(call, s.pushes[call]);
    assert t.sent == s.sent[call := true] && t.chan.data == s.chan.data + [s.pushes[call]];
    forall j {:trigger s.chan.producers[j]} | 0 <= j < |s.chan.producers|
      ensures s.chan.producers[j] in t.waiting
      ensures t.waiting[s.chan.producers[j]] == Pushing(call + 1 + j, s.pushes[call + 1 + j]) {
      assert s.chan.producers[j] == ps[j + 1];
    }
  }

  lemma InvLandPush(s: Sys)
    requires Inv(s) && Enabled(s, Land) && s.waiting[s.landing.value].Pushing?
    ensures Inv(Next(s, Land)) && Next(s, Land).landing == None
  {
    var t, co := Next(s, Land), s.landing.value;
    LandedPush(s);
    StillQueued(s, t, co);
  }

  lemma InvLandPop(s: Sys)
    requires Inv(s) && Enabled(s, Land) && s.waiting[s.landing.value].Popping?
    ensures Inv(Next(s, Land)) && Next(s, Land).landing == None
  {
    var t, co := Next(s, Land), s.landing.value;
    assert Consumers(s)[0] == s.landing.value;
    assert InOrder(t, [], s.chan.consumers) by {
      assert s.chan.consumers == Consumers(s)[1..];
    }
    StillQueued(s, t, co);
  }

  ghost predicate EnabledRun(s: Sys, es: seq<Event>)
    decreases |es|
  {
    es == [] || (Enabled(s, es[0]) && EnabledRun(Next(s, es[0]), es[1..]))
  }

  ghost function Run(s: Sys, es: seq<Event>): Sys
    requires EnabledRun(s, es)
    decreases |es|
  {
    if es == [] then s else Run(Next(s, es[0]), es[1..])
  }

  lemma {:induction false} InvRun(s: Sys, es: seq<Event>)
    requires Inv(s) && EnabledRun(s, es)
    ensures Inv(Run(s, es))
    decreases |es|
  {
    if es != [] {
      InvNext(s, es[0]);
      InvRun(Next(s, es[0]), es[1..]);
    }
  }

  function Min(a: int, b: int): int {
    if a < b then a else b
  }

  lemma {:induction false} CapacityKept(s: Sys, es: seq<Event>)
    requires EnabledRun(s, es)
    ensures Run(s, es).chan.capacity == s.chan.capacity
    decreases |es|
  {
    if es != [] {
      CapacityKept(Next(s, es[0]), es[1..]);
    }
  }

  /** What push calls bring and who makes them, in call order, and who makes pop calls. */
  function BroughtBy(e: Event): seq<Datum> {
    if e.CallPush? then [e.d] else []
  }

  function PusherOf(e: Event): seq<int> {
    if e.CallPush? then [e.co] else []
  }

  function PopperOf(e: Event): seq<int> {
    if e.CallPop? then [e.co] else []
  }

  function Brought(es: seq<Event>): seq<Datum> {
    if es == [] then [] else BroughtBy(es[0]) + Brought(es[1..])
  }

  function Pushers(es: seq<Event>): seq<int> {
    if es == [] then [] else PusherOf(es[0]) + Pushers(es[1..])
  }

  function Poppers(es: seq<Event>): seq<int> {
    if es == [] then [] else PopperOf(es[0]) + Poppers(es[1..])
  }

  lemma Assoc<T>(a: seq<T>, b: seq<T>, c: seq<T>)
    ensures (a + b) + c == a + (b + c)
  {
  }

  lemma CallIs(s: Sys, e: Event)
    requires Enabled(s, e)
    ensures Next(s, e).pushes == s.pushes + BroughtBy(e) && Next(s, e).pops == s.pops + |PopperOf(e)|
    ensures |BroughtBy(e)| == |PusherOf(e)|
  {
    assert s.pushes + [] == s.pushes;
  }

  lemma {:induction false} CallsAre(s: Sys, es: seq<Event>)
    requires EnabledRun(s, es)
    ensures Run(s, es).pushes == s.pushes + Brought(es) && Run(s, es).pops == s.pops + |Poppers(es)|
    ensures |Brought(es)| == |Pushers(es)|
    decreases |es|
  {
    if es == [] {
      assert s.pushes + [] == s.pushes;
    } else {
      CallIs(s, es[0]);
      CallsAre(Next(s, es[0]), es[1..]);
      Assoc(s.pushes, BroughtBy(es[0]), Brought(es[1..]));
    }
  }

  /** Those who wait are those who called last, in call order. */
  ghost predicate Ends(xs: seq<int>, end: seq<int>) {
    |end| <= |xs| && xs[|xs| - |end|..] == end
  }

  ghost predicate Lines(s: Sys, pushers: seq<int>, poppers: seq<int>) {
    Ends(pushers, Producers(s)) && Ends(poppers, Consumers(s))
  }

  lemma EndsWith(xs: seq<int>, end: seq<int>, x: int)
    requires Ends(xs, end)
    ensures Ends(xs + [x], end + [x]) && Ends(xs + [x], []) && xs + [] == xs
    ensures end != [] ==> Ends(xs, end[1..])
  {
  }

  lemma PushLines(s: Sys, co: int, d: Datum)
    requires Inv(s) && Enabled(s, CallPush(co, d))
    ensures var t := Next(s, CallPush(co, d));
            Consumers(t) == Consumers(s) && (Producers(t) == Producers(s) + [co] || Producers(t) == [])
  {
    if !Full(s.chan) && s.chan.consumers != [] {
      assert s.chan.consumers[0] == Consumers(s)[0];
    }
  }

  lemma PopLines(s: Sys, co: int)
    requires Inv(s) && Enabled(s, CallPop(co))
    ensures var t := Next(s, CallPop(co));
            Producers(t) == Producers(s) && (Consumers(t) == Consumers(s) + [co] || Consumers(t) == [])
  {
    var t := Next(s, CallPop(co));
    if s.chan.data == [] {
      assert t.landing == None && t.chan.consumers == s.chan.consumers + [co];
    } else {
      assert s.chan.consumers == [];
      if s.chan.producers != [] { assert s.waiting[Producers(s)[0]].Pushing?; }
    }
  }

  /** A call joins the end of its line, or finds its line empty. */
  lemma CallLines(s: Sys, e: Event)
    requires Inv(s) && Enabled(s, e) && !e.Land?
    ensures var t := Next(s, e);
            && (Producers(t) == Producers(s) + PusherOf(e) || (e.CallPush? && Producers(t) == []))
            && (Consumers(t) == Consumers(s) + PopperOf(e) || (e.CallPop? && Consumers(t) == []))
  {
    if e.CallPush? { PushLines(s, e.co, e.d); } else { PopLines(s, e.co); }
    assert Producers(s) + [] == Producers(s) && Consumers(s) + [] == Consumers(s);
  }

  /** One that has been woken leaves the head of its line. */
  lemma LandLines(s: Sys)
    requires Inv(s) && Enabled(s, Land)
    ensures var t := Next(s, Land);
            || (Producers(s) != [] && Producers(t) == Producers(s)[1..] && Consumers(t) == Consumers(s))
            || (Consumers(s) != [] && Consumers(t) == Consumers(s)[1..] && Producers(t) == Producers(s))
  {
    if s.waiting[s.landing.value].Pushing? { InvLandPush(s); } else { InvLandPop(s); }
  }

  lemma LinesNext(s: Sys, e: Event, pushers: seq<int>, poppers: seq<int>)
    requires Inv(s) && Enabled(s, e) && Lines(s, pushers, poppers)
    ensures Lines(Next(s, e), pushers + PusherOf(e), poppers + PopperOf(e))
  {
    if e.Land? {
      LandLines(s);
      LineMoves(pushers, Producers(s), [], Producers(Next(s, e)));
      LineMoves(poppers, Consumers(s), [], Consumers(Next(s, e)));
    } else {
      CallLines(s, e);
      LineMoves(pushers, Producers(s), PusherOf(e), Producers(Next(s, e)));
      LineMoves(poppers, Consumers(s), PopperOf(e), Consumers(Next(s, e)));
    }
  }

  lemma LineMoves(callers: seq<int>, line: seq<int>, more: seq<int>, after: seq<int>)
    requires Ends(callers, line) && |more| <= 1
    requires || after == line + more || after == [] || (more == [] && after == line)
             || (more == [] && line != [] && after == line[1..])
    ensures Ends(callers + more, after)
  {
    EndsWith(callers, line, if more == [] then 0 else more[0]);
    assert line + [] == line;
  }

  lemma {:induction false} LinesRun(s: Sys, es: seq<Event>, pushers: seq<int>, poppers: seq<int>)
    requires Inv(s) && EnabledRun(s, es) && Lines(s, pushers, poppers)
    ensures Lines(Run(s, es), pushers + Pushers(es), poppers + Poppers(es))
    decreases |es|
  {
    if es == [] {
      assert pushers + [] == pushers && poppers + [] == poppers;
    } else {
      InvNext(s, es[0]);
      LinesNext(s, es[0], pushers, poppers);
      LinesRun(Next(s, es[0]), es[1..], pushers + PusherOf(es[0]), poppers + PopperOf(es[0]));
      Assoc(pushers, PusherOf(es[0]), Pushers(es[1..]));
      Assoc(poppers, PopperOf(es[0]), Poppers(es[1..]));
    }
  }

  /** What P push calls with the data `brought` and q pop calls come to, when no resumed waiter
      is still under way: everything is determined. */
  ghost predicate Settled(s: Sys, brought: seq<Datum>, q: nat) {
    var P, k := |brought|, s.chan.capacity;
    && |s.chan.data| == (if P > q then Min(k, P - q) else 0)
    && s.chan.data == brought[Min(P, q)..Min(P, q) + |s.chan.data|]
    && |s.chan.producers| == (if P > q then P - q - |s.chan.data| else 0)
    && |s.chan.consumers| == (if P > q then 0 else q - P)
    && (forall i :: 0 <= i < Min(P, q) ==> i in s.got && s.got[i] == Some(brought[i]))
    && (forall i :: i in s.got ==> i < Min(P, q))
    && (forall i :: 0 <= i < Min(P, q + k) ==> i in s.sent && s.sent[i])
    && (forall i :: i in s.sent ==> i < Min(P, q + k))
  }

  lemma InvSettles(s: Sys)
    requires Inv(s) && s.landing == None
    ensures Settled(s, s.pushes, s.pops)
  {
  }

  /** Every untimed run, read off its calls alone, seen when no resumed waiter is still under
      way.  With P push calls and q pop calls made, everything is determined: which data are in
      the channel, who waits and for what, and that pop call i has returned the datum of push
      call i exactly when both calls have been made, while push call i has returned true
      exactly when it is among the first q + capacity. */
  lemma ClosedForm(capacity: nat, es: seq<Event>)
    requires capacity >= 1 && EnabledRun(Fresh(capacity), es) && Run(Fresh(capacity), es).landing == None
    ensures var s := Run(Fresh(capacity), es);
            && s.chan.capacity == capacity && Settled(s, Brought(es), |Poppers(es)|)
            && Ends(Pushers(es), s.chan.producers) && Ends(Poppers(es), s.chan.consumers)
  {
    InvFresh(capacity);
    CapacityKept(Fresh(capacity), es);
    InvRun(Fresh(capacity), es);
    CallsAre(Fresh(capacity), es);
    LinesRun(Fresh(capacity), es, [], []);
    assert [] + Brought(es) == Brought(es) && [] + Pushers(es) == Pushers(es) && [] + Poppers(es) == Poppers(es);
    InvSettles(Run(Fresh(capacity), es));
  }

  /** At every moment of every untimed run: no push has returned false, no pop has returned
      nothing, and a waiter is passed over by nobody: waiting producers mean a full channel,
      waiting consumers an empty one. */
  lemma NoFailure(capacity: nat, es: seq<Event>)
    requires capacity >= 1 && EnabledRun(Fresh(capacity), es)
    ensures var s := Run(Fresh(capacity), es);
            && (forall i :: i in s.sent ==> s.sent[i])
            && (forall i :: i in s.got ==> s.got[i].Some?)
            && (s.landing == None && s.chan.producers != [] ==> Full(s.chan))
            && (s.landing == None && s.chan.consumers != [] ==> s.chan.data == [])
  {
    InvFresh(capacity);
    InvRun(Fresh(capacity), es);
  }
}

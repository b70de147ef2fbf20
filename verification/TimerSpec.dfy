/** The timer list on values, and a firing pass as one sweep over the events that are due
    when it begins.  Module TimerTurns shows that a loop which goes back to the head of a
    changing list after every callback comes to the same, module Timers that the program runs
    that loop. */
module TimerSpec {

  datatype Clock = Clock(sec: int, ms: int)

  datatype Event = Event(id: int, sec: int, ms: int, fin: bool)   // fin: has a finalizer

  /** Events newest first.  `finalized` lists the ids whose finalizer ran; `born` says of
      each id ever given out whether it came with a finalizer. */
  datatype Timers = Timers(
    events: seq<Event>, nextId: int, lastTime: int, finalized: seq<int>, born: seq<bool>)

  const NOMORE: int := -1

  // ----- deadlines ---------------------------------------------------------------------

  /** Division of C by 1000, which rounds toward zero, and its remainder. */
  function Quot(a: int): int {
    if a >= 0 then a / 1000 else -((-a) / 1000)
  }

  function Rem(a: int): int {
    a - 1000 * Quot(a)
  }

  /** add_milliseconds_tonow */
  function Later(now: Clock, delay: int): Clock {
    var sec, ms := now.sec + Quot(delay), now.ms + Rem(delay);
    if ms >= 1000 then Clock(sec + 1, ms - 1000) else Clock(sec, ms)
  }

  function Millis(c: Clock): int {
    c.sec * 1000 + c.ms
  }

  predicate Proper(c: Clock) {
    0 <= c.ms < 1000
  }

  function Deadline(e: Event): Clock {
    Clock(e.sec, e.ms)
  }

  /** The test in process_time_event. */
  predicate Due(e: Event, now: Clock) {
    now.sec > e.sec || (now.sec == e.sec && now.ms >= e.ms)
  }

  /** A deadline set `delay` from now is exactly that much later, and its two parts are
      normalised exactly when the remainder of the delay does not pull the milliseconds
      below zero; a delay that is not negative never does. */
  lemma LaterIsExact(now: Clock, delay: int)
    requires Proper(now)
    ensures Millis(Later(now, delay)) == Millis(now) + delay
    ensures Proper(Later(now, delay)) <==> now.ms + Rem(delay) >= 0
    ensures delay >= 0 ==> Proper(Later(now, delay))
  {
    assert delay >= 0 ==> Rem(delay) == delay % 1000;
    assert delay < 0 ==> -1000 < Rem(delay) <= 0;
  }

  lemma DueIsExact(e: Event, now: Clock)
    requires Proper(now) && Proper(Deadline(e))
    ensures Due(e, now) <==> Millis(now) >= Millis(Deadline(e))
  {
  }

  /** An event put off by `ret` is due again at once exactly when `ret` is not positive: a
      pass in which a callback keeps returning 0 or less, other than NOMORE, goes on firing it. */
  lemma DueAgainAtOnce(now: Clock, ret: int, id: int, fin: bool)
    requires Proper(now)
    ensures var at := Later(now, ret); Due(Event(id, at.sec, at.ms, fin), now) <==> ret <= 0
  {
    LaterIsExact(now, ret);
    assert ret < 0 ==> Quot(ret) <= 0 && Rem(ret) <= 0;
  }

  predicate Earlier(a: Event, b: Event) {
    a.sec < b.sec || (a.sec == b.sec && a.ms < b.ms)
  }

  /** A `long` returned as `int`. */
  function ToInt(x: int): int {
    (x + 0x8000_0000) % 0x1_0000_0000 - 0x8000_0000
  }

  /** search_nearest_time once the nearest event is known: only the seconds are cut off at
      0, and what it returns is a `long` converted to `int`. */
  function WaitLong(e: Event, now: Clock): int {
    var sec, ms := e.sec - now.sec, e.ms - now.ms;
    if e.ms < now.ms then (if sec - 1 < 0 then 0 else sec - 1) * 1000 + ((ms + 1000) * 1000) / 1000
    else (if sec < 0 then 0 else sec) * 1000 + (ms * 1000) / 1000
  }

  function WaitFor(e: Event, now: Clock): int {
    ToInt(WaitLong(e, now))
  }

  lemma WaitLongIs(e: Event, now: Clock)
    requires Proper(now) && Proper(Deadline(e))
    ensures var gap := Millis(Deadline(e)) - Millis(now);
            WaitLong(e, now) == if gap >= 0 then gap else gap % 1000
  {
    var s, m := e.sec - now.sec, e.ms - now.ms;
    if m < 0 {
      ModThousand(s - 1, m + 1000);
    } else {
      ModThousand(s, m);
    }
  }

  lemma ModThousand(q: int, r: int)
    requires 0 <= r < 1000
    ensures (1000 * q + r) % 1000 == r
    ensures (r * 1000) / 1000 == r
  {
  }

  /** The wait until a deadline: exact when it lies ahead and is less than 2^31 ms away,
      under a second, (deadline - now) mod 1000, when it has passed.  From 2^31 ms on the
      conversion turns it negative, which epoll_wait takes for no limit at all. */
  lemma WaitIsExact(e: Event, now: Clock)
    requires Proper(now) && Proper(Deadline(e))
    ensures var gap := Millis(Deadline(e)) - Millis(now);
            && (gap >= 0 ==> (WaitFor(e, now) == gap <==> gap < 0x8000_0000))
            && (gap < 0 ==> WaitFor(e, now) == gap % 1000)
            && (0x8000_0000 <= gap < 0x1_0000_0000 ==> WaitFor(e, now) < 0)
  {
    WaitLongIs(e, now);
  }

  // ----- the list ----------------------------------------------------------------------

  ghost predicate Has(events: seq<Event>, id: int) {
    exists i :: 0 <= i < |events| && events[i].id == id
  }

  /** The place of the event with this id, or the length of the list. */
  ghost function IndexOf(events: seq<Event>, id: int): (i: nat)
    ensures if Has(events, id) then i < |events| && events[i].id == id else i == |events|
  {
    if Has(events, id) then var i :| 0 <= i < |events| && events[i].id == id; i else |events|
  }

  ghost function Without(events: seq<Event>, id: int): seq<Event> {
    var i := IndexOf(events, id);
    if i < |events| then events[..i] + events[i + 1..] else events
  }

  ghost function Retimed(events: seq<Event>, id: int, at: Clock): seq<Event> {
    seq(|events|, i requires 0 <= i < |events| =>
      if events[i].id == id then events[i].(sec := at.sec, ms := at.ms) else events[i])
  }

  ghost predicate HasFin(events: seq<Event>, id: int) {
    var i := IndexOf(events, id);
    i < |events| && events[i].fin
  }

  /** create_time_event */
  ghost function Add(ts: Timers, now: Clock, delay: int, fin: bool): Timers {
    var at := Later(now, delay);
    ts.(events := [Event(ts.nextId, at.sec, at.ms, fin)] + ts.events,
        nextId := ts.nextId + 1,
        born := ts.born + [fin])
  }

  /** del_time */
  ghost function Remove(ts: Timers, id: int): Timers {
    ts.(events := Without(ts.events, id),
        finalized := if HasFin(ts.events, id) then ts.finalized + [id] else ts.finalized)
  }

  /** Ids fall strictly along the list and stay below the next one to be given out. */
  ghost predicate Descending(events: seq<Event>, nextId: int) {
    && 0 <= nextId
    && (forall i {:trigger events[i]} :: 0 <= i < |events| ==> 0 <= events[i].id < nextId)
    && (forall i, j {:trigger events[i], events[j]} :: 0 <= i < j < |events| ==> events[i].id > events[j].id)
  }

  lemma IndexIs(events: seq<Event>, id: int, n: int, i: nat)
    requires Descending(events, n) && i < |events| && events[i].id == id
    ensures IndexOf(events, id) == i
  {
  }

  ghost function Dropped(ts: Timers, i: nat): Timers
    requires i < |ts.events|
  {
    ts.(events := ts.events[..i] + ts.events[i + 1..],
        finalized := if ts.events[i].fin then ts.finalized + [ts.events[i].id] else ts.finalized)
  }

  lemma RemoveAt(ts: Timers, i: nat)
    requires Descending(ts.events, ts.nextId) && i < |ts.events|
    ensures Remove(ts, ts.events[i].id) == Dropped(ts, i)
    ensures Has(ts.events, ts.events[i].id)
    ensures Descending(Dropped(ts, i).events, ts.nextId)
  {
    IndexIs(ts.events, ts.events[i].id, ts.nextId, i);
  }

  lemma DroppedIs(events: seq<Event>, i: nat, n: int)
    requires Descending(events, n) && i < |events|
    ensures var w := events[..i] + events[i + 1..];
            Descending(w, n) && forall e :: e in w <==> e in events && e.id != events[i].id
  {
    var w := events[..i] + events[i + 1..];
    assert forall j {:trigger w[j]} :: 0 <= j < |w| ==> w[j] == events[if j < i then j else j + 1];
    forall e | e in events && e.id != events[i].id ensures e in w {
      var j :| 0 <= j < |events| && events[j] == e;
      assert if j < i then w[j] == e else w[j - 1] == e;
    }
    forall e | e in w ensures e in events && e.id != events[i].id {
      var j :| 0 <= j < |w| && w[j] == e;
    }
  }

  lemma WithoutIs(events: seq<Event>, id: int, n: int)
    requires Descending(events, n)
    ensures Descending(Without(events, id), n)
    ensures forall e :: e in Without(events, id) <==> e in events && e.id != id
    ensures Has(events, id) ==> |Without(events, id)| == |events| - 1
  {
    if Has(events, id) {
      DroppedIs(events, IndexOf(events, id), n);
    }
  }

  ghost predicate IsNearest(events: seq<Event>, i: nat) {
    i < |events| && forall j {:trigger events[j]} :: 0 <= j < |events| ==> !Earlier(events[j], events[i])
  }

  /** The wait before the next poll never goes past a deadline that lies less than 2^31 ms
      ahead, and holds up one that has passed by less than a second. */
  lemma NearestWait(events: seq<Event>, i: nat, now: Clock, j: nat)
    requires IsNearest(events, i) && j < |events| && Proper(now)
    requires forall k {:trigger events[k]} :: 0 <= k < |events| ==> Proper(Deadline(events[k]))
    ensures var m := Millis(Deadline(events[i])) - Millis(now);
            && m <= Millis(Deadline(events[j])) - Millis(now)
            && (0 <= m < 0x8000_0000 ==> WaitFor(events[i], now) == m)
            && (m < 0 ==> 0 <= WaitFor(events[i], now) < 1000)
  {
    WaitIsExact(events[i], now);
    assert !Earlier(events[j], events[i]);
    assert Proper(Deadline(events[i])) && Proper(Deadline(events[j]));
  }

  // ----- callbacks and the pass --------------------------------------------------------

  /** What PHP code in a callback may do to timers, and what a callback amounts to: the
      operations it makes, in order, and the value it returns. */
  datatype TimerOp = Start(delay: int, fin: bool) | Cancel(id: int)

  datatype Reaction = Reaction(ops: seq<TimerOp>, ret: int)

  /** The behaviour of all callbacks of a pass: the k-th one to run, for event `id`. */
  type World = (nat, int) -> Reaction

  ghost function Apply(ts: Timers, now: Clock, op: TimerOp): Timers {
    match op
    case Start(delay, fin) => Add(ts, now, delay, fin)
    case Cancel(id) => Remove(ts, id)
  }

  ghost function ApplyAll(ts: Timers, now: Clock, ops: seq<TimerOp>): Timers {
    if ops == [] then ts else Apply(ApplyAll(ts, now, ops[..|ops| - 1]), now, ops[|ops| - 1])
  }

  /** One event fires: its callback runs, and it is removed or gets a new deadline. */
  ghost function Fire(ts: Timers, id: int, now: Clock, r: Reaction): Timers {
    var u := ApplyAll(ts, now, r.ops);
    if r.ret == NOMORE then Remove(u, id) else u.(events := Retimed(u.events, id, Later(now, r.ret)))
  }

  /** The sweep: each of `todo`, in order, fires if it is still in the list. */
  ghost function Sweep(ts: Timers, todo: seq<int>, k: nat, now: Clock, world: World): (Timers, seq<int>)
    decreases |todo|
  {
    if todo == [] then (ts, [])
    else if !Has(ts.events, todo[0]) then Sweep(ts, todo[1..], k, now, world)
    else
      var (v, fired) := Sweep(Fire(ts, todo[0], now, world(k, todo[0])), todo[1..], k + 1, now, world);
      (v, [todo[0]] + fired)
  }

  ghost function DueIds(events: seq<Event>, now: Clock): seq<int> {
    if events == [] then []
    else if Due(events[0], now) then [events[0].id] + DueIds(events[1..], now)
    else DueIds(events[1..], now)
  }

  /** When the clock went back since the last pass, all deadlines lose their seconds. */
  ghost function Skewed(ts: Timers, now: Clock): Timers {
    if now.sec < ts.lastTime then
      ts.(lastTime := now.sec,
          events := seq(|ts.events|, i requires 0 <= i < |ts.events| => ts.events[i].(sec := 0)))
    else ts.(lastTime := now.sec)
  }

  ghost function Pass(ts: Timers, now: Clock, world: World): (Timers, seq<int>) {
    Sweep(Skewed(ts, now), DueIds(Skewed(ts, now).events, now), 0, now, world)
  }

  /** The period is over at some time: NOMORE, or positive. */
  predicate Lasting(ret: int) {
    ret == NOMORE || ret > 0
  }

  /** A callback that asks for a period has not deleted its own event, which the program
      would then write to. */
  ghost predicate Harmless(id: int, r: Reaction) {
    r.ret == NOMORE || Cancel(id) !in r.ops
  }

  ghost predicate Tame(id: int, r: Reaction) {
    Harmless(id, r) && Lasting(r.ret)
  }

  ghost predicate HarmlessAll(world: World) {
    forall k: nat, id {:trigger world(k, id)} :: Harmless(id, world(k, id))
  }

  // ----- invariants --------------------------------------------------------------------

  /** Exactly the events with a finalizer that have left the list were finalized, once. */
  ghost predicate Accounts(ts: Timers) {
    && |ts.born| == ts.nextId
    && (forall i {:trigger ts.events[i]} :: 0 <= i < |ts.events| ==>
          0 <= ts.events[i].id < ts.nextId && ts.events[i].fin == ts.born[ts.events[i].id])
    && (forall id {:trigger multiset(ts.finalized)[id]} ::
          multiset(ts.finalized)[id] ==
          if 0 <= id < ts.nextId && ts.born[id] && !Has(ts.events, id) then 1 else 0)
  }

  ghost predicate Wf(ts: Timers) {
    Descending(ts.events, ts.nextId) && Accounts(ts)
  }

  lemma WfAdd(ts: Timers, now: Clock, delay: int, fin: bool)
    requires Wf(ts)
    ensures Wf(Add(ts, now, delay, fin))
    ensures forall e :: e in Add(ts, now, delay, fin).events && e.id < ts.nextId <==> e in ts.events
  {
    var t := Add(ts, now, delay, fin);
    var x := t.events[0];
    assert t.events == [x] + ts.events;
    assert forall e :: e in t.events <==> e == x || e in ts.events;
    assert Descending(t.events, t.nextId);
    AccountsAdd(ts, t);
  }

  lemma AccountsAdd(ts: Timers, t: Timers)
    requires Wf(ts) && t.events != [] && t.events[1..] == ts.events && t.events[0].id == ts.nextId
    requires t.nextId == ts.nextId + 1 && t.born == ts.born + [t.events[0].fin] && t.finalized == ts.finalized
    ensures Accounts(t)
  {
    forall i {:trigger t.events[i]} | 0 < i < |t.events|
      ensures 0 <= t.events[i].id < ts.nextId && t.events[i].fin == t.born[t.events[i].id] {
      assert t.events[i] == ts.events[i - 1];
    }
    forall id ensures Has(t.events, id) <==> Has(ts.events, id) || id == ts.nextId {
      HasIs(ts.events, id);
      HasIs(t.events, id);
      assert t.events == [t.events[0]] + ts.events;
    }
  }

  lemma WfRemove(ts: Timers, id: int)
    requires Wf(ts)
    ensures Wf(Remove(ts, id))
    ensures forall e :: e in Remove(ts, id).events <==> e in ts.events && e.id != id
  {
    WithoutIs(ts.events, id, ts.nextId);
    var t := Remove(ts, id);
    forall x ensures Has(t.events, x) <==> Has(ts.events, x) && x != id {
      HasIs(ts.events, x);
      HasIs(t.events, x);
    }
    if HasFin(ts.events, id) {
      assert multiset(t.finalized) == multiset(ts.finalized) + multiset{id};
    }
  }

  lemma HasIs(events: seq<Event>, id: int)
    ensures Has(events, id) <==> exists e :: e in events && e.id == id
  {
    if Has(events, id) {
      assert events[IndexOf(events, id)] in events;
    }
  }

  lemma RetimedHas(events: seq<Event>, id: int, at: Clock, x: int)
    ensures Has(Retimed(events, id, at), x) <==> Has(events, x)
  {
    var r := Retimed(events, id, at);
    if Has(r, x) { assert events[IndexOf(r, x)].id == x; }
    if Has(events, x) { assert r[IndexOf(events, x)].id == x; }
  }

  lemma RetimedIs(events: seq<Event>, id: int, at: Clock)
    ensures forall e :: e in Retimed(events, id, at) && e.id != id <==> e in events && e.id != id
    ensures forall e :: e in Retimed(events, id, at) && e.id == id ==> Deadline(e) == at
  {
    var r := Retimed(events, id, at);
    forall e | e in events && e.id != id ensures e in r {
      var i :| 0 <= i < |events| && events[i] == e;
      assert r[i] == e;
    }
  }

  lemma WfRetimed(ts: Timers, id: int, at: Clock)
    requires Wf(ts)
    ensures Wf(ts.(events := Retimed(ts.events, id, at)))
    ensures forall e :: e in Retimed(ts.events, id, at) && e.id != id <==> e in ts.events && e.id != id
    ensures forall e :: e in Retimed(ts.events, id, at) && e.id == id ==> Deadline(e) == at
  {
    RetimedIs(ts.events, id, at);
    forall x ensures Has(Retimed(ts.events, id, at), x) <==> Has(ts.events, x) {
      RetimedHas(ts.events, id, at, x);
    }
  }

  /** A callback only removes what it cancels and only adds ids never used before. */
  lemma {:induction false} ApplyAllIs(ts: Timers, now: Clock, ops: seq<TimerOp>)
    requires Wf(ts)
    ensures var u := ApplyAll(ts, now, ops);
            && Wf(u) && u.nextId >= ts.nextId
            && (forall e :: e in u.events && e.id < ts.nextId <==> e in ts.events && Cancel(e.id) !in ops)
    decreases |ops|
  {
    if ops != [] {
      var prefix, op := ops[..|ops| - 1], ops[|ops| - 1];
      assert ops == prefix + [op];
      ApplyAllIs(ts, now, prefix);
      var u := ApplyAll(ts, now, prefix);
      match op {
        case Start(delay, fin) => WfAdd(u, now, delay, fin);
        case Cancel(id) => WfRemove(u, id);
      }
    }
  }

  lemma FireIs(ts: Timers, id: int, now: Clock, r: Reaction)
    requires Wf(ts) && id < ts.nextId
    ensures var u := Fire(ts, id, now, r);
            && Wf(u) && u.nextId >= ts.nextId
            && (forall e :: e in u.events && e.id < ts.nextId && e.id != id <==>
                  e in ts.events && e.id != id && Cancel(e.id) !in r.ops)
            && (forall e :: e in u.events && e.id == id ==> r.ret != NOMORE && Deadline(e) == Later(now, r.ret))
  {
    ApplyAllIs(ts, now, r.ops);
    var u := ApplyAll(ts, now, r.ops);
    if r.ret == NOMORE {
      WfRemove(u, id);
    } else {
      WfRetimed(u, id, Later(now, r.ret));
    }
  }

  ghost predicate Falling(ids: seq<int>) {
    forall i, j :: 0 <= i < j < |ids| ==> ids[i] > ids[j]
  }

  lemma FallingCons(x: int, xs: seq<int>)
    requires Falling(xs) && forall y :: y in xs ==> y < x
    ensures Falling([x] + xs)
  {
    forall i, j | 0 <= i < j < |[x] + xs| ensures ([x] + xs)[i] > ([x] + xs)[j] {
      assert ([x] + xs)[j] == xs[j - 1] && xs[j - 1] in xs;
      assert i > 0 ==> ([x] + xs)[i] == xs[i - 1];
    }
  }

  /** What a sweep leaves: an old event that did not fire is unchanged or gone, one that
      fired is there only with the period its callback asked for, and every event of `todo`
      that is still there did fire. */
  ghost predicate Swept(
      ts: Timers, todo: seq<int>, k: nat, now: Clock, world: World, v: Timers, fired: seq<int>)
  {
    && v.nextId >= ts.nextId
    && Falling(fired) && (forall id :: id in fired ==> id in todo)
    && (forall e :: e in v.events && e.id < ts.nextId && e.id !in fired ==> e in ts.events)
    && (forall e :: e in v.events && e.id in todo ==> e.id in fired)
    && (forall e, j {:trigger e in v.events, fired[j]} ::
          e in v.events && 0 <= j < |fired| && fired[j] == e.id ==>
            world(k + j, e.id).ret != NOMORE && Deadline(e) == Later(now, world(k + j, e.id).ret))
  }

  /** What is left after event `id` has fired: old events as they were, and `id` itself only
      with its period. */
  ghost predicate Leftover(ts: Timers, u: Timers, id: int, now: Clock, r: Reaction) {
    && u.nextId >= ts.nextId
    && (forall e :: e in u.events && e.id < ts.nextId && e.id != id ==> e in ts.events)
    && (forall e :: e in u.events && e.id == id ==> r.ret != NOMORE && Deadline(e) == Later(now, r.ret))
  }

  lemma SweptCons(
      ts: Timers, u: Timers, todo: seq<int>, k: nat, now: Clock, world: World, v: Timers, fired: seq<int>)
    requires Falling(todo) && todo != [] && todo[0] < ts.nextId && Leftover(ts, u, todo[0], now, world(k, todo[0]))
    requires Swept(u, todo[1..], k + 1, now, world, v, fired)
    ensures Swept(ts, todo, k, now, world, v, [todo[0]] + fired)
  {
    var id, all := todo[0], [todo[0]] + fired;
    assert forall x :: x in todo[1..] ==> x in todo && x < id;
    FallingCons(id, fired);
    forall e | e in v.events && e.id < ts.nextId && e.id !in all ensures e in ts.events {
      assert e.id !in fired && e in u.events;
    }
    forall e | e in v.events && e.id == id ensures e in u.events {
      assert e.id !in fired;
    }
    forall e, j {:trigger e in v.events, all[j]} | e in v.events && 0 <= j < |all| && all[j] == e.id
      ensures world(k + j, e.id).ret != NOMORE && Deadline(e) == Later(now, world(k + j, e.id).ret) {
      if j > 0 {
        assert fired[j - 1] == e.id;
      }
    }
  }

  lemma {:induction false} SweepIs(ts: Timers, todo: seq<int>, k: nat, now: Clock, world: World)
    requires Wf(ts) && Proper(now) && Falling(todo) && (forall id :: id in todo ==> id < ts.nextId)
    ensures var (v, fired) := Sweep(ts, todo, k, now, world);
            Wf(v) && Swept(ts, todo, k, now, world, v, fired)
    decreases |todo|
  {
    if todo != [] {
      var id, rest := todo[0], todo[1..];
      assert forall x :: x in rest ==> x in todo && x < id;
      if !Has(ts.events, id) {
        SweepIs(ts, rest, k, now, world);
        HasIs(ts.events, id);
      } else {
        var u := Fire(ts, id, now, world(k, id));
        FireIs(ts, id, now, world(k, id));
        SweepIs(u, rest, k + 1, now, world);
        var (v, fired) := Sweep(u, rest, k + 1, now, world);
        SweptCons(ts, u, todo, k, now, world, v, fired);
      }
    }
  }

  /** How many of `fired` come before `id` in falling order. */
  ghost function Place(fired: seq<int>, id: int): (n: nat)
    ensures n <= |fired|
  {
    if fired == [] || fired[0] <= id then 0 else 1 + Place(fired[1..], id)
  }

  ghost predicate Spared(fired: seq<int>, id: int, k: nat, world: World) {
    forall j {:trigger fired[j]} :: 0 <= j < Place(fired, id) ==> Cancel(id) !in world(k + j, fired[j]).ops
  }

  /** An event of `todo` fires exactly if it is there and no callback that fires before it
      cancels it. */
  lemma {:induction false} FiresUnlessCancelled(
      ts: Timers, todo: seq<int>, k: nat, now: Clock, world: World, id: int)
    requires Wf(ts) && Proper(now) && Falling(todo) && (forall x :: x in todo ==> x < ts.nextId) && id in todo
    ensures var fired := Sweep(ts, todo, k, now, world).1;
            id in fired <==> Has(ts.events, id) && Spared(fired, id, k, world)
    decreases |todo|
  {
    var head, rest := todo[0], todo[1..];
    assert forall x :: x in rest ==> x in todo && x < head;
    SweepIs(ts, todo, k, now, world);
    if !Has(ts.events, head) {
      SweepIs(ts, rest, k, now, world);
      if id != head {
        FiresUnlessCancelled(ts, rest, k, now, world, id);
      }
    } else {
      var u := Fire(ts, head, now, world(k, head));
      FireIs(ts, head, now, world(k, head));
      var fired, fired' := Sweep(ts, todo, k, now, world).1, Sweep(u, rest, k + 1, now, world).1;
      assert fired == [head] + fired' && fired[1..] == fired';
      if id != head {
        FiresUnlessCancelled(u, rest, k + 1, now, world, id);
        assert Has(u.events, id) <==> Has(ts.events, id) && Cancel(id) !in world(k, head).ops by {
          HasIs(u.events, id);
          HasIs(ts.events, id);
        }
        assert Spared(fired, id, k, world) <==>
               Cancel(id) !in world(k, head).ops && Spared(fired', id, k + 1, world) by {
          SparedStep(fired, id, k, world);
        }
      }
    }
  }

  lemma SparedStep(fired: seq<int>, id: int, k: nat, world: World)
    requires fired != [] && fired[0] > id
    ensures Spared(fired, id, k, world) <==>
            Cancel(id) !in world(k, fired[0]).ops && Spared(fired[1..], id, k + 1, world)
  {
    var rest := fired[1..];
    if Spared(fired, id, k, world) {
      forall j {:trigger rest[j]} | 0 <= j < Place(rest, id) ensures Cancel(id) !in world(k + 1 + j, rest[j]).ops {
        assert rest[j] == fired[j + 1];
      }
    }
    if Cancel(id) !in world(k, fired[0]).ops && Spared(rest, id, k + 1, world) {
      forall j {:trigger fired[j]} | 0 <= j < Place(fired, id) ensures Cancel(id) !in world(k + j, fired[j]).ops {
        if j > 0 {
          assert fired[j] == rest[j - 1];
        }
      }
    }
  }

  lemma {:induction false} DueIdsAre(events: seq<Event>, n: int, now: Clock)
    requires Descending(events, n)
    ensures Falling(DueIds(events, now))
    ensures forall id :: id in DueIds(events, now) ==> 0 <= id < n && (events != [] ==> id <= events[0].id)
    ensures forall id :: id in DueIds(events, now) <==> exists e :: e in events && e.id == id && Due(e, now)
    decreases |events|
  {
    if events != [] {
      assert Descending(events[1..], n);
      DueIdsAre(events[1..], n, now);
      assert forall e :: e in events <==> e == events[0] || e in events[1..];
      assert |events| > 1 ==> events[1..][0].id < events[0].id;
      if Due(events[0], now) {
        FallingCons(events[0].id, DueIds(events[1..], now));
      }
    }
  }

  lemma SkewedIs(ts: Timers, now: Clock)
    requires Wf(ts)
    ensures Wf(Skewed(ts, now))
    ensures forall id :: Has(Skewed(ts, now).events, id) <==> Has(ts.events, id)
  {
    var t := Skewed(ts, now);
    forall id ensures Has(t.events, id) <==> Has(ts.events, id) {
      if Has(t.events, id) { assert ts.events[IndexOf(t.events, id)].id == id; }
      if Has(ts.events, id) { assert t.events[IndexOf(ts.events, id)].id == id; }
    }
  }

  // ----- what a pass leaves ------------------------------------------------------------

  /** A firing takes event `x` out of the list exactly if its callback cancels it, or it is
      the one that fires and is not to be put off. */
  lemma FireHas(ts: Timers, id: int, now: Clock, r: Reaction, x: int)
    requires Wf(ts) && id < ts.nextId && x < ts.nextId
    ensures Has(Fire(ts, id, now, r).events, x) <==>
              Has(ts.events, x) && Cancel(x) !in r.ops && (x == id ==> r.ret != NOMORE)
  {
    ApplyAllIs(ts, now, r.ops);
    FireIs(ts, id, now, r);
    var u, v := ApplyAll(ts, now, r.ops), Fire(ts, id, now, r);
    HasIs(ts.events, x);
    HasIs(u.events, x);
    HasIs(v.events, x);
    RetimedHas(u.events, id, Later(now, r.ret), x);
  }

  ghost predicate Survives(fired: seq<int>, k: nat, world: World, id: int) {
    forall j {:trigger fired[j]} :: 0 <= j < |fired| ==>
      Cancel(id) !in world(k + j, fired[j]).ops && (fired[j] == id ==> world(k + j, id).ret != NOMORE)
  }

  lemma SurvivesFirst(fired: seq<int>, k: nat, world: World, id: int)
    requires fired != []
    ensures Survives(fired, k, world, id) <==>
              && Cancel(id) !in world(k, fired[0]).ops && (fired[0] == id ==> world(k, id).ret != NOMORE)
              && Survives(fired[1..], k + 1, world, id)
  {
    var rest := fired[1..];
    if Survives(fired, k, world, id) {
      forall j {:trigger rest[j]} | 0 <= j < |rest|
        ensures Cancel(id) !in world(k + 1 + j, rest[j]).ops && (rest[j] == id ==> world(k + 1 + j, id).ret != NOMORE) {
        assert rest[j] == fired[j + 1];
      }
    } else {
      var j: nat :| j < |fired|
        && !(Cancel(id) !in world(k + j, fired[j]).ops && (fired[j] == id ==> world(k + j, id).ret != NOMORE));
      assert j > 0 ==> fired[j] == rest[j - 1];
    }
  }

  /** Of the events there before the sweep exactly those are left that survive all callbacks. */
  lemma {:induction false} SweepLeaves(ts: Timers, todo: seq<int>, k: nat, now: Clock, world: World, x: int)
    requires Wf(ts) && (forall id :: id in todo ==> id < ts.nextId) && x < ts.nextId
    ensures var (v, fired) := Sweep(ts, todo, k, now, world);
            && v.lastTime == ts.lastTime
            && (Has(v.events, x) <==> Has(ts.events, x) && Survives(fired, k, world, x))
    decreases |todo|
  {
    if todo != [] {
      var id, rest := todo[0], todo[1..];
      assert id in todo && forall y :: y in rest ==> y in todo;
      if !Has(ts.events, id) {
        SweepLeaves(ts, rest, k, now, world, x);
      } else {
        var u := Fire(ts, id, now, world(k, id));
        FireIs(ts, id, now, world(k, id));
        FireHas(ts, id, now, world(k, id), x);
        FireKeepsTime(ts, id, now, world(k, id));
        SweepLeaves(u, rest, k + 1, now, world, x);
        var fired := Sweep(ts, todo, k, now, world).1;
        assert fired[1..] == Sweep(u, rest, k + 1, now, world).1;
        SurvivesFirst(fired, k, world, x);
      }
    }
  }

  lemma {:induction false} ApplyAllKeepsTime(ts: Timers, now: Clock, ops: seq<TimerOp>)
    ensures ApplyAll(ts, now, ops).lastTime == ts.lastTime
    decreases |ops|
  {
    if ops != [] {
      ApplyAllKeepsTime(ts, now, ops[..|ops| - 1]);
    }
  }

  lemma FireKeepsTime(ts: Timers, id: int, now: Clock, r: Reaction)
    ensures Fire(ts, id, now, r).lastTime == ts.lastTime
  {
    ApplyAllKeepsTime(ts, now, r.ops);
  }

  /** The events of the list with their seconds gone. */
  ghost function WithoutSeconds(events: seq<Event>): seq<Event> {
    seq(|events|, i requires 0 <= i < |events| => Event(events[i].id, 0, events[i].ms, events[i].fin))
  }

  /** A pass that begins with `entry` in the list and ends with `v`.  Callbacks run in falling
      order of id, each once; they belong to events of `entry` that are due; one that is due
      runs unless a callback that ran before it cancelled the event.  Of the events of `entry`
      those are left that no callback cancelled and that, if they fired, asked for a period;
      one that did not fire is as it was and not due, and one that fired has its period, and is
      due again exactly if that is not positive. */
  ghost predicate ExactPass(entry: seq<Event>, n: int, now: Clock, world: World, v: Timers, fired: seq<int>) {
    && Falling(fired)
    && (forall id :: id in fired ==> exists e :: e in entry && e.id == id && Due(e, now))
    && (forall e :: e in entry && Due(e, now) ==> (e.id in fired <==> Spared(fired, e.id, 0, world)))
    && (forall id :: id < n ==> (Has(v.events, id) <==> Has(entry, id) && Survives(fired, 0, world, id)))
    && (forall e :: e in v.events && e.id < n && e.id !in fired ==> e in entry && !Due(e, now))
    && (forall e, j {:trigger e in v.events, fired[j]} ::
          e in v.events && 0 <= j < |fired| && fired[j] == e.id ==>
            && Millis(Deadline(e)) == Millis(now) + world(j, e.id).ret
            && (Due(e, now) <==> world(j, e.id).ret <= 0))
  }

  lemma SweepIsExact(t: Timers, now: Clock, world: World)
    requires Wf(t) && Proper(now)
    ensures var (v, fired) := Sweep(t, DueIds(t.events, now), 0, now, world);
            Wf(v) && v.lastTime == t.lastTime && ExactPass(t.events, t.nextId, now, world, v, fired)
  {
    var todo := DueIds(t.events, now);
    DueIdsAre(t.events, t.nextId, now);
    SweepIs(t, todo, 0, now, world);
    var (v, fired) := Sweep(t, todo, 0, now, world);
    SweepLeaves(t, todo, 0, now, world, -1);
    forall id | id < t.nextId ensures Has(v.events, id) <==> Has(t.events, id) && Survives(fired, 0, world, id) {
      SweepLeaves(t, todo, 0, now, world, id);
    }
    forall e | e in t.events && Due(e, now) ensures e.id in fired <==> Spared(fired, e.id, 0, world) {
      FiresUnlessCancelled(t, todo, 0, now, world, e.id);
      HasIs(t.events, e.id);
    }
    forall e, j {:trigger e in v.events, fired[j]} | e in v.events && 0 <= j < |fired| && fired[j] == e.id
      ensures Millis(Deadline(e)) == Millis(now) + world(j, e.id).ret
      ensures Due(e, now) <==> world(j, e.id).ret <= 0 {
      LaterIsExact(now, world(j, e.id).ret);
      DueAgainAtOnce(now, world(j, e.id).ret, e.id, e.fin);
    }
  }

  /** A firing pass with the clock standing still.  If the clock has not gone back since the
      last pass it is exact for the list as it stands; if it has, for the list with all seconds
      gone.  The time of the pass is noted. */
  lemma PassIsExact(ts: Timers, now: Clock, world: World)
    requires Wf(ts) && Proper(now)
    ensures var (v, fired) := Pass(ts, now, world);
            && Wf(v) && v.lastTime == now.sec
            && (ts.lastTime <= now.sec ==> ExactPass(ts.events, ts.nextId, now, world, v, fired))
            && (now.sec < ts.lastTime ==> ExactPass(WithoutSeconds(ts.events), ts.nextId, now, world, v, fired))
  {
    var t := Skewed(ts, now);
    SkewedIs(ts, now);
    SweepIsExact(t, now, world);
    assert now.sec < ts.lastTime ==> t.events == WithoutSeconds(ts.events);
  }

  // ----- every interleaving of creating, deleting and firing ---------------------------

  /** The beginning of a pass, and each of its firings, are actions of their own, so that
      passes that never end are covered as far as they go, and one that is broken off as far
      as the end of the callback. */
  datatype Action = Operate(now: Clock, op: TimerOp) | BeginPass(now: Clock) | FireOne(now: Clock, id: int, r: Reaction)

  ghost function Act(ts: Timers, a: Action): Timers {
    match a
    case Operate(now, op) => Apply(ts, now, op)
    case BeginPass(now) => Skewed(ts, now)
    case FireOne(now, id, r) =>
      if !Has(ts.events, id) then ts else if Harmless(id, r) then Fire(ts, id, now, r) else ApplyAll(ts, now, r.ops)
  }

  ghost function ActAll(ts: Timers, actions: seq<Action>): Timers
    decreases |actions|
  {
    if actions == [] then ts else ActAll(Act(ts, actions[0]), actions[1..])
  }

  ghost predicate Empty(ts: Timers) {
    ts.events == [] && ts.nextId == 0 && ts.finalized == [] && ts.born == []
  }

  /** In every run the ids fall strictly along the list and stay below the counter, and the
      finalizers that ran are those of the events that left the list, each exactly once. */
  lemma {:induction false} ListIntegrity(ts: Timers, actions: seq<Action>)
    requires Wf(ts)
    requires forall a :: a in actions && a.FireOne? ==> Proper(a.now)
    ensures Wf(ActAll(ts, actions))
    decreases |actions|
  {
    if actions != [] {
      assert actions[0] in actions;
      match actions[0] {
        case Operate(now, Start(delay, fin)) => WfAdd(ts, now, delay, fin);
        case Operate(now, Cancel(id)) => WfRemove(ts, id);
        case BeginPass(now) => SkewedIs(ts, now);
        case FireOne(now, id, r) =>
          if Has(ts.events, id) {
            FireIs(ts, id, now, r);
            ApplyAllIs(ts, now, r.ops);
          }
      }
      ListIntegrity(Act(ts, actions[0]), actions[1..]);
    }
  }

  /** The clock of the passes does not go back, from `last` on. */
  ghost predicate Forward(last: int, actions: seq<Action>)
    decreases |actions|
  {
    actions == [] ||
    (if actions[0].BeginPass? then last <= actions[0].now.sec && Forward(actions[0].now.sec, actions[1..])
     else Forward(last, actions[1..]))
  }

  lemma ActKeepsDeadlines(ts: Timers, a: Action)
    requires Wf(ts) && (a.BeginPass? ==> ts.lastTime <= a.now.sec)
    ensures var t := Act(ts, a);
            && t.lastTime == (if a.BeginPass? then a.now.sec else ts.lastTime) && t.nextId >= ts.nextId
            && forall e :: e in t.events && e.id < ts.nextId && !(a.FireOne? && a.id == e.id) ==> e in ts.events
  {
    match a {
      case Operate(now, Start(delay, fin)) => WfAdd(ts, now, delay, fin);
      case Operate(now, Cancel(id)) => WfRemove(ts, id);
      case BeginPass(now) =>
      case FireOne(now, id, r) =>
        if Has(ts.events, id) {
          HasIs(ts.events, id);
          FireIs(ts, id, now, r);
          ApplyAllIs(ts, now, r.ops);
          ApplyAllKeepsTime(ts, now, r.ops);
        }
    }
  }

  /** As long as the clock does not go back, a deadline stays as it is from the creation of the
      event to its firing, or until it is deleted. */
  lemma {:induction false} DeadlinesStay(ts: Timers, actions: seq<Action>, e: Event)
    requires Wf(ts) && Forward(ts.lastTime, actions) && (forall a :: a in actions && a.FireOne? ==> Proper(a.now))
    requires e in ActAll(ts, actions).events && e.id < ts.nextId
    requires forall a :: a in actions && a.FireOne? ==> a.id != e.id
    ensures e in ts.events
    decreases |actions|
  {
    if actions != [] {
      var t := Act(ts, actions[0]);
      assert actions[0] in actions && forall a :: a in actions[1..] ==> a in actions;
      ActKeepsDeadlines(ts, actions[0]);
      ListIntegrity(ts, [actions[0]]);
      assert ActAll(ts, [actions[0]]) == t;
      DeadlinesStay(t, actions[1..], e);
    }
  }

  // ----- what the list owes to those who made its events -------------------------------

  /** An event as it was asked for: when it is due, in milliseconds, and with or without a
      finalizer. */
  datatype Birth = Birth(due: int, fin: bool)

  function Asked(now: Clock, ops: seq<TimerOp>): seq<Birth> {
    if ops == [] then []
    else Asked(now, ops[..|ops| - 1]) +
         match ops[|ops| - 1] case Start(delay, fin) => [Birth(Millis(now) + delay, fin)] case Cancel(_) => []
  }

  function OpsOf(a: Action): seq<TimerOp> {
    match a case Operate(_, op) => [op] case BeginPass(_) => [] case FireOne(_, _, r) => r.ops
  }

  /** The events asked for in a run, in order, read off its actions alone. */
  function Births(actions: seq<Action>): seq<Birth>
    decreases |actions|
  {
    if actions == [] then [] else Asked(actions[0].now, OpsOf(actions[0])) + Births(actions[1..])
  }

  ghost predicate Fired(actions: seq<Action>, id: int) {
    exists a :: a in actions && a.FireOne? && a.id == id
  }

  ghost predicate Cancelled(actions: seq<Action>, id: int) {
    exists a :: a in actions && Cancel(id) in OpsOf(a)
  }

  /** Only events of the list fire. */
  ghost predicate FromList(ts: Timers, actions: seq<Action>)
    decreases |actions|
  {
    actions == [] ||
    ((actions[0].FireOne? ==> Has(ts.events, actions[0].id)) && FromList(Act(ts, actions[0]), actions[1..]))
  }

  /** The list against what was asked for, but for the events in `fired` and in `cancelled`. */
  ghost predicate Owed(ts: Timers, births: seq<Birth>, fired: iset<int>, cancelled: iset<int>, steady: bool) {
    && Wf(ts) && |births| == ts.nextId
    && (forall i {:trigger births[i]} :: 0 <= i < |births| ==> ts.born[i] == births[i].fin)
    && (steady ==> forall e :: e in ts.events && e.id !in fired ==> Millis(Deadline(e)) == births[e.id].due)
    && (forall id {:trigger Has(ts.events, id)} ::
          0 <= id < |births| && id !in fired && id !in cancelled ==> Has(ts.events, id))
  }

  lemma OwedAdd(ts: Timers, now: Clock, delay: int, fin: bool, bs: seq<Birth>, f: iset<int>, c: iset<int>, steady: bool)
    requires Owed(ts, bs, f, c, steady) && Proper(now)
    ensures Owed(Add(ts, now, delay, fin), bs + [Birth(Millis(now) + delay, fin)], f, c, steady)
  {
    WfAdd(ts, now, delay, fin);
    LaterIsExact(now, delay);
    var t := Add(ts, now, delay, fin);
    assert t.events == [t.events[0]] + ts.events;
    forall id ensures Has(t.events, id) <==> Has(ts.events, id) || id == ts.nextId {
      HasIs(ts.events, id);
      HasIs(t.events, id);
    }
  }

  lemma OwedRemove(ts: Timers, id: int, bs: seq<Birth>, f: iset<int>, c: iset<int>, steady: bool)
    requires Owed(ts, bs, f, c, steady) && (id in f || id in c)
    ensures Owed(Remove(ts, id), bs, f, c, steady)
  {
    WfRemove(ts, id);
    forall x ensures Has(Remove(ts, id).events, x) <==> Has(ts.events, x) && x != id {
      HasIs(ts.events, x);
      HasIs(Remove(ts, id).events, x);
    }
  }

  lemma OwedRetimed(ts: Timers, id: int, at: Clock, bs: seq<Birth>, f: iset<int>, c: iset<int>, steady: bool)
    requires Owed(ts, bs, f, c, steady) && id in f
    ensures Owed(ts.(events := Retimed(ts.events, id, at)), bs, f, c, steady)
  {
    WfRetimed(ts, id, at);
    forall x ensures Has(Retimed(ts.events, id, at), x) <==> Has(ts.events, x) {
      RetimedHas(ts.events, id, at, x);
    }
  }

  lemma {:induction false} OwedApply(
      ts: Timers, now: Clock, ops: seq<TimerOp>, bs: seq<Birth>, f: iset<int>, c: iset<int>, steady: bool)
    requires Owed(ts, bs, f, c, steady) && Proper(now) && forall id :: Cancel(id) in ops ==> id in c
    ensures Owed(ApplyAll(ts, now, ops), bs + Asked(now, ops), f, c, steady)
    decreases |ops|
  {
    if ops == [] {
      assert bs + Asked(now, ops) == bs;
    } else {
      var prefix, op := ops[..|ops| - 1], ops[|ops| - 1];
      OwedApply(ts, now, prefix, bs, f, c, steady);
      var u, us := ApplyAll(ts, now, prefix), bs + Asked(now, prefix);
      match op {
        case Start(delay, fin) =>
          OwedAdd(u, now, delay, fin, us, f, c, steady);
          assert us + [Birth(Millis(now) + delay, fin)] == bs + Asked(now, ops);
        case Cancel(id) =>
          OwedRemove(u, id, us, f, c, steady);
          assert us == bs + Asked(now, ops);
      }
    }
  }

  lemma OwedSkewed(ts: Timers, now: Clock, bs: seq<Birth>, f: iset<int>, c: iset<int>, steady: bool)
    requires Owed(ts, bs, f, c, steady) && (steady ==> ts.lastTime <= now.sec)
    ensures Owed(Skewed(ts, now), bs, f, c, steady)
  {
    SkewedIs(ts, now);
  }

  lemma OwedFire(ts: Timers, a: Action, bs: seq<Birth>, f: iset<int>, c: iset<int>, steady: bool)
    requires a.FireOne? && Owed(ts, bs, f, c, steady) && Noted(a, f, c) && Has(ts.events, a.id)
    ensures Owed(Act(ts, a), bs + Asked(a.now, a.r.ops), f, c, steady)
  {
    OwedApply(ts, a.now, a.r.ops, bs, f, c, steady);
    var u, us := ApplyAll(ts, a.now, a.r.ops), bs + Asked(a.now, a.r.ops);
    if a.r.ret == NOMORE {
      OwedRemove(u, a.id, us, f, c, steady);
    } else {
      OwedRetimed(u, a.id, Later(a.now, a.r.ret), us, f, c, steady);
    }
  }

  lemma OwedOperate(ts: Timers, a: Action, bs: seq<Birth>, f: iset<int>, c: iset<int>, steady: bool)
    requires a.Operate? && Owed(ts, bs, f, c, steady) && Noted(a, f, c)
    ensures Owed(Act(ts, a), bs + Asked(a.now, [a.op]), f, c, steady)
  {
    match a.op {
      case Start(delay, fin) => OwedAdd(ts, a.now, delay, fin, bs, f, c, steady);
      case Cancel(id) => OwedRemove(ts, id, bs, f, c, steady);
    }
    assert [a.op][..0] == [] && Asked(a.now, []) == [];
    assert a.op.Cancel? ==> bs + Asked(a.now, [a.op]) == bs;
  }

  ghost predicate Noted(a: Action, f: iset<int>, c: iset<int>) {
    Proper(a.now) && (a.FireOne? ==> a.id in f) && forall id :: Cancel(id) in OpsOf(a) ==> id in c
  }

  lemma OwedAct(ts: Timers, a: Action, bs: seq<Birth>, f: iset<int>, c: iset<int>, steady: bool)
    requires Owed(ts, bs, f, c, steady) && Noted(a, f, c)
    requires steady && a.BeginPass? ==> ts.lastTime <= a.now.sec
    requires a.FireOne? ==> Has(ts.events, a.id)
    ensures Owed(Act(ts, a), bs + Asked(a.now, OpsOf(a)), f, c, steady)
  {
    match a {
      case Operate(_, _) => OwedOperate(ts, a, bs, f, c, steady);
      case FireOne(_, _, _) => OwedFire(ts, a, bs, f, c, steady);
      case BeginPass(now) =>
        OwedSkewed(ts, now, bs, f, c, steady);
        assert bs + Asked(now, []) == bs;
    }
  }

  /** The rest of a run, with all that fires in `f` and all that is cancelled in `c`. */
  ghost predicate Fits(ts: Timers, actions: seq<Action>, f: iset<int>, c: iset<int>, steady: bool) {
    && FromList(ts, actions) && (forall a :: a in actions ==> Noted(a, f, c))
    && (steady ==> Forward(ts.lastTime, actions))
  }

  lemma FitsRest(ts: Timers, actions: seq<Action>, f: iset<int>, c: iset<int>, steady: bool)
    requires Fits(ts, actions, f, c, steady) && actions != []
    ensures var a := actions[0];
            && Noted(a, f, c) && (a.FireOne? ==> Has(ts.events, a.id))
            && (steady && a.BeginPass? ==> ts.lastTime <= a.now.sec)
            && Fits(Act(ts, a), actions[1..], f, c, steady)
  {
    assert actions[0] in actions && forall b :: b in actions[1..] ==> b in actions;
    ActTime(ts, actions[0]);
  }

  lemma Joined(a: seq<Birth>, b: seq<Birth>, c: seq<Birth>)
    ensures a + (b + c) == (a + b) + c
  {
  }

  lemma OwedNext(ts: Timers, actions: seq<Action>, bs: seq<Birth>, f: iset<int>, c: iset<int>, steady: bool)
      returns (t: Timers, us: seq<Birth>)
    requires Owed(ts, bs, f, c, steady) && Fits(ts, actions, f, c, steady) && actions != []
    ensures t == Act(ts, actions[0]) && bs + Births(actions) == us + Births(actions[1..])
    ensures Owed(t, us, f, c, steady) && Fits(t, actions[1..], f, c, steady)
  {
    t, us := Act(ts, actions[0]), bs + Asked(actions[0].now, OpsOf(actions[0]));
    FitsRest(ts, actions, f, c, steady);
    Joined(bs, Asked(actions[0].now, OpsOf(actions[0])), Births(actions[1..]));
    OwedAct(ts, actions[0], bs, f, c, steady);
  }

  lemma {:induction false} OwedRun(
      ts: Timers, actions: seq<Action>, bs: seq<Birth>, f: iset<int>, c: iset<int>, steady: bool)
    requires Owed(ts, bs, f, c, steady) && Fits(ts, actions, f, c, steady)
    ensures Owed(ActAll(ts, actions), bs + Births(actions), f, c, steady)
    decreases |actions|
  {
    if actions == [] {
      assert bs + Births(actions) == bs;
    } else {
      var t, us := OwedNext(ts, actions, bs, f, c, steady);
      OwedRun(t, actions[1..], us, f, c, steady);
    }
  }

  lemma ActTime(ts: Timers, a: Action)
    ensures Act(ts, a).lastTime == if a.BeginPass? then a.now.sec else ts.lastTime
  {
    if a.FireOne? { ApplyAllKeepsTime(ts, a.now, a.r.ops); }
  }

  /** In every run from an empty list, the list and the finalizers are what the actions asked
      for: ids are given out in order; an event that has neither fired nor been cancelled is in
      the list, due, if the clock of the passes has not gone back, its delay after it was made;
      and the finalizers that ran are those of the events that were made with one and are no
      longer there, each once. */
  lemma ListIsAsAsked(ts: Timers, actions: seq<Action>)
    requires Empty(ts) && FromList(ts, actions) && forall a :: a in actions ==> Proper(a.now)
    ensures var v, births := ActAll(ts, actions), Births(actions);
            && v.nextId == |births|
            && (forall e :: e in v.events ==> 0 <= e.id < |births| && e.fin == births[e.id].fin)
            && (forall e :: e in v.events && Forward(ts.lastTime, actions) && !Fired(actions, e.id) ==>
                  Millis(Deadline(e)) == births[e.id].due)
            && (forall id :: 0 <= id < |births| && !Fired(actions, id) && !Cancelled(actions, id) ==> Has(v.events, id))
            && (forall id :: multiset(v.finalized)[id] ==
                  if 0 <= id < |births| && births[id].fin && !Has(v.events, id) then 1 else 0)
  {
    var f, c := iset id | Fired(actions, id), iset id | Cancelled(actions, id);
    OwedFromEmpty(ts, actions, f, c);
  }

  lemma OwedFromEmpty(ts: Timers, actions: seq<Action>, f: iset<int>, c: iset<int>)
    requires Empty(ts) && FromList(ts, actions) && forall a :: a in actions ==> Noted(a, f, c)
    ensures Owed(ActAll(ts, actions), Births(actions), f, c, Forward(ts.lastTime, actions))
  {
    var steady := Forward(ts.lastTime, actions);
    assert Owed(ts, [], f, c, steady) && Fits(ts, actions, f, c, steady);
    OwedRun(ts, actions, [], f, c, steady);
    assert [] + Births(actions) == Births(actions);
  }
}

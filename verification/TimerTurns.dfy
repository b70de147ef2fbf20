/** The firing pass as the program runs it: turn by turn, always from the head of the list.
    For callbacks as they ought to be this is the sweep of module TimerSpec; for others it may
    go on for ever, or break off. */
module TimerTurns {
  import opened TimerSpec

  ghost predicate Fires(e: Event, maxId: int, now: Clock) {
    e.id <= maxId && Due(e, now)
  }

  /** Where the scan from the head stops: at the first event that fires, or at the end. */
  ghost function FirstDue(events: seq<Event>, maxId: int, now: Clock): (n: nat)
    ensures n <= |events|
  {
    if events == [] || Fires(events[0], maxId, now) then 0 else 1 + FirstDue(events[1..], maxId, now)
  }

  lemma {:induction false} FirstDueIs(events: seq<Event>, maxId: int, now: Clock, i: nat)
    requires i <= |events| && (i < |events| ==> Fires(events[i], maxId, now))
    requires forall j {:trigger events[j]} :: 0 <= j < i ==> !Fires(events[j], maxId, now)
    ensures FirstDue(events, maxId, now) == i
    decreases |events|
  {
    if i > 0 {
      FirstDueIs(events[1..], maxId, now, i - 1);
    }
  }

  lemma {:induction false} FirstDueFires(events: seq<Event>, maxId: int, now: Clock)
    ensures var n := FirstDue(events, maxId, now);
            && (n < |events| ==> Fires(events[n], maxId, now))
            && (forall j {:trigger events[j]} :: 0 <= j < n ==> !Fires(events[j], maxId, now))
    decreases |events|
  {
    if events != [] && !Fires(events[0], maxId, now) {
      FirstDueFires(events[1..], maxId, now);
      assert forall j {:trigger events[j]} :: 0 < j < |events| ==> events[j] == events[1..][j - 1];
    }
  }

  ghost predicate Idle(ts: Timers, maxId: int, now: Clock) {
    FirstDue(ts.events, maxId, now) == |ts.events|
  }

  ghost function Firing(ts: Timers, maxId: int, now: Clock): int
    requires !Idle(ts, maxId, now)
  {
    ts.events[FirstDue(ts.events, maxId, now)].id
  }

  /** One turn of the loop, the k-th: the first due event fires, and the scan begins again. */
  ghost predicate Turn(s: Timers, t: Timers, id: int, maxId: int, k: nat, now: Clock, world: World) {
    && !Idle(s, maxId, now) && id == Firing(s, maxId, now) && Harmless(id, world(k, id))
    && t == Fire(s, id, now, world(k, id))
  }

  /** The k-th turn has no meaning: the event is to be put off, but its own callback has
      deleted it, and the program writes to a node that is no more. */
  ghost predicate Breaks(s: Timers, maxId: int, k: nat, now: Clock, world: World) {
    !Idle(s, maxId, now) && !Harmless(Firing(s, maxId, now), world(k, Firing(s, maxId, now)))
  }

  /** A whole pass from its k-th turn on: the states between the turns and the events that
      fire.  At its end nothing is left to fire, or the next turn breaks it off. */
  ghost predicate History(
      ts: Timers, states: seq<Timers>, fires: seq<int>, maxId: int, k: nat, now: Clock, world: World, broken: bool)
  {
    && |states| == |fires| + 1 && states[0] == ts
    && (if broken then Breaks(states[|fires|], maxId, k + |fires|, now, world) else Idle(states[|fires|], maxId, now))
    && (forall j {:trigger fires[j]} :: 0 <= j < |fires| ==>
          Turn(states[j], states[j + 1], fires[j], maxId, k + j, now, world))
  }

  /** A pass goes on until nothing is left to fire or a turn breaks it off, and no further. */
  lemma HistoryAt(
      ts: Timers, states: seq<Timers>, fires: seq<int>,
      maxId: int, k: nat, now: Clock, world: World, broken: bool, j: nat)
    requires History(ts, states, fires, maxId, k, now, world, broken) && j <= |fires|
    ensures Idle(states[j], maxId, now) <==> j == |fires| && !broken
    ensures Breaks(states[j], maxId, k + j, now, world) <==> j == |fires| && broken
    ensures j < |fires| ==> Turn(states[j], states[j + 1], fires[j], maxId, k + j, now, world)
  {
    if j < |fires| {
      var id := fires[j];
      assert Turn(states[j], states[j + 1], id, maxId, k + j, now, world);
    }
  }

  /** What the scan finds decides how the pass goes on. */
  lemma NextTurn(
      ts: Timers, states: seq<Timers>, fires: seq<int>,
      maxId: int, k: nat, now: Clock, world: World, broken: bool, j: nat, i: nat)
    requires History(ts, states, fires, maxId, k, now, world, broken) && j <= |fires|
    requires i < |states[j].events| && Fires(states[j].events[i], maxId, now)
    requires forall h {:trigger states[j].events[h]} :: 0 <= h < i ==> !Fires(states[j].events[h], maxId, now)
    ensures var id := states[j].events[i].id;
            && !Idle(states[j], maxId, now) && id == Firing(states[j], maxId, now)
            && (if Harmless(id, world(k + j, id))
                then j < |fires| && fires[j] == id && states[j + 1] == Fire(states[j], id, now, world(k + j, id))
                else j == |fires| && broken)
  {
    FirstDueIs(states[j].events, maxId, now, i);
    HistoryAt(ts, states, fires, maxId, k, now, world, broken, j);
  }

  /** When the scan comes to the end of the list, the pass is over. */
  lemma LastScan(
      ts: Timers, states: seq<Timers>, fires: seq<int>,
      maxId: int, k: nat, now: Clock, world: World, broken: bool, j: nat)
    requires History(ts, states, fires, maxId, k, now, world, broken) && j <= |fires|
    requires forall h {:trigger states[j].events[h]} :: 0 <= h < |states[j].events| ==>
               !Fires(states[j].events[h], maxId, now)
    ensures j == |fires| && !broken
  {
    FirstDueIs(states[j].events, maxId, now, |states[j].events|);
    HistoryAt(ts, states, fires, maxId, k, now, world, broken, j);
  }

  /** The list at the moment at which a turn breaks the pass off. */
  ghost function Cut(s: Timers, maxId: int, k: nat, now: Clock, world: World): Timers
    requires !Idle(s, maxId, now)
  {
    ApplyAll(s, now, world(k, Firing(s, maxId, now)).ops)
  }

  lemma TailHistory(
      ts: Timers, states: seq<Timers>, fires: seq<int>, maxId: int, k: nat, now: Clock, world: World, broken: bool)
    requires History(ts, states, fires, maxId, k, now, world, broken) && fires != []
    ensures Turn(ts, states[1], fires[0], maxId, k, now, world)
    ensures History(states[1], states[1..], fires[1..], maxId, k + 1, now, world, broken)
  {
    assert fires[0] == fires[0];
    forall j {:trigger fires[1..][j]} | 0 <= j < |fires[1..]|
      ensures Turn(states[1..][j], states[1..][j + 1], fires[1..][j], maxId, k + 1 + j, now, world) {
      assert fires[1..][j] == fires[j + 1];
    }
  }

  lemma ConsHistory(
      ts: Timers, u: Timers, id: int, states: seq<Timers>, fires: seq<int>,
      maxId: int, k: nat, now: Clock, world: World, broken: bool)
    requires Turn(ts, u, id, maxId, k, now, world) && History(u, states, fires, maxId, k + 1, now, world, broken)
    ensures History(ts, [ts] + states, [id] + fires, maxId, k, now, world, broken)
  {
    var all, ids := [ts] + states, [id] + fires;
    forall j {:trigger ids[j]} | 0 <= j < |ids| ensures Turn(all[j], all[j + 1], ids[j], maxId, k + j, now, world) {
      if j > 0 {
        assert ids[j] == fires[j - 1];
      }
    }
  }

  lemma SameBeginning(
      ts: Timers, states: seq<Timers>, fires: seq<int>, broken: bool,
      others: seq<Timers>, ids: seq<int>, cut: bool, maxId: int, k: nat, now: Clock, world: World)
    requires History(ts, states, fires, maxId, k, now, world, broken)
    requires History(ts, others, ids, maxId, k, now, world, cut)
    ensures if fires == [] then ids == [] && broken == cut
            else ids != [] && fires[0] == ids[0] && states[1] == others[1]
  {
    HistoryAt(ts, states, fires, maxId, k, now, world, broken, 0);
    HistoryAt(ts, others, ids, maxId, k, now, world, cut, 0);
  }

  lemma SameSeq<T>(a: seq<T>, b: seq<T>)
    requires a != [] && b != [] && a[0] == b[0] && a[1..] == b[1..]
    ensures a == b
  {
    assert a == [a[0]] + a[1..] && b == [b[0]] + b[1..];
  }

  /** Callbacks decide how a pass goes: it has one history at most, and ends in one way. */
  lemma {:induction false} OneHistory(
      ts: Timers, states: seq<Timers>, fires: seq<int>, broken: bool,
      others: seq<Timers>, ids: seq<int>, cut: bool, maxId: int, k: nat, now: Clock, world: World)
    requires History(ts, states, fires, maxId, k, now, world, broken)
    requires History(ts, others, ids, maxId, k, now, world, cut)
    ensures states == others && fires == ids && broken == cut
    decreases |fires|
  {
    SameBeginning(ts, states, fires, broken, others, ids, cut, maxId, k, now, world);
    if fires == [] {
      assert states == [ts] && others == [ts];
    } else {
      TailHistory(ts, states, fires, maxId, k, now, world, broken);
      TailHistory(ts, others, ids, maxId, k, now, world, cut);
      OneHistory(states[1], states[1..], fires[1..], broken, others[1..], ids[1..], cut, maxId, k + 1, now, world);
      SameSeq(states, others);
      SameSeq(fires, ids);
    }
  }

  /** A pass keeps the books of the list. */
  lemma {:induction false} TurnsKeepWf(
      ts: Timers, states: seq<Timers>, fires: seq<int>, maxId: int, k: nat, now: Clock, world: World, broken: bool)
    requires Wf(ts) && maxId < ts.nextId && Proper(now) && History(ts, states, fires, maxId, k, now, world, broken)
    ensures Wf(states[|fires|])
    decreases |fires|
  {
    if fires != [] {
      TailHistory(ts, states, fires, maxId, k, now, world, broken);
      FirstDueFires(ts.events, maxId, now);
      FireIs(ts, fires[0], now, world(k, fires[0]));
      TurnsKeepWf(states[1], states[1..], fires[1..], maxId, k + 1, now, world, broken);
    }
  }

  /** Nothing in a pass changes the time noted for it. */
  lemma {:induction false} TurnsKeepTime(
      ts: Timers, states: seq<Timers>, fires: seq<int>, maxId: int, k: nat, now: Clock, world: World, broken: bool)
    requires History(ts, states, fires, maxId, k, now, world, broken)
    ensures states[|fires|].lastTime == ts.lastTime
    ensures broken ==> Cut(states[|fires|], maxId, k + |fires|, now, world).lastTime == ts.lastTime
    decreases |fires|
  {
    if fires != [] {
      TailHistory(ts, states, fires, maxId, k, now, world, broken);
      FireKeepsTime(ts, fires[0], now, world(k, fires[0]));
      TurnsKeepTime(states[1], states[1..], fires[1..], maxId, k + 1, now, world, broken);
    } else if broken {
      ApplyAllKeepsTime(ts, now, world(k, Firing(ts, maxId, now)).ops);
    }
  }

  // ----- which event fires -------------------------------------------------------------

  /** The newest of the events that are due and not newer than `maxId`. */
  ghost predicate NewestDue(ts: Timers, maxId: int, now: Clock, id: int) {
    && (exists e :: e in ts.events && e.id == id && Fires(e, maxId, now))
    && (forall e {:trigger e in ts.events} :: e in ts.events && Fires(e, maxId, now) ==> e.id <= id)
  }

  lemma FiringIsNewest(ts: Timers, maxId: int, now: Clock)
    requires Wf(ts)
    ensures Idle(ts, maxId, now) <==> forall e {:trigger e in ts.events} :: e in ts.events ==> !Fires(e, maxId, now)
    ensures !Idle(ts, maxId, now) ==>
              forall id :: id == Firing(ts, maxId, now) <==> NewestDue(ts, maxId, now, id)
  {
    FirstDueFires(ts.events, maxId, now);
    if !Idle(ts, maxId, now) {
      var n := FirstDue(ts.events, maxId, now);
      assert ts.events[n] in ts.events;
      assert NewestDue(ts, maxId, now, ts.events[n].id);
    }
  }

  // ----- a pass that does not end ------------------------------------------------------

  /** An event whose callback asks for a period that is over already is the next to fire
      again. */
  lemma FiresAgain(ts: Timers, maxId: int, now: Clock, r: Reaction, id: int)
    requires Wf(ts) && maxId < ts.nextId && Proper(now) && NewestDue(ts, maxId, now, id)
    requires Harmless(id, r) && !Lasting(r.ret)
    ensures var u := Fire(ts, id, now, r); Wf(u) && maxId < u.nextId && NewestDue(u, maxId, now, id)
  {
    var e :| e in ts.events && e.id == id && Fires(e, maxId, now);
    FireIs(ts, id, now, r);
    ApplyAllIs(ts, now, r.ops);
    var a, u := ApplyAll(ts, now, r.ops).events, Fire(ts, id, now, r);
    HasIs(a, id);
    RetimedHas(a, id, Later(now, r.ret), id);
    HasIs(u.events, id);
    var d :| d in u.events && d.id == id;
    DueAgainAtOnce(now, r.ret, id, d.fin);
    assert Fires(d, maxId, now);
  }

  /** Such a pass fires that event for ever, unless one day its callback deletes it, which
      breaks the pass off: it never comes to its end. */
  lemma {:induction false} RestlessNeverEnds(
      ts: Timers, states: seq<Timers>, fires: seq<int>, maxId: int, k: nat, now: Clock, world: World, id: int)
    requires Wf(ts) && maxId < ts.nextId && Proper(now) && NewestDue(ts, maxId, now, id)
    requires forall j: nat {:trigger world(j, id)} :: !Lasting(world(j, id).ret)
    ensures !History(ts, states, fires, maxId, k, now, world, false)
    decreases |fires|
  {
    FiringIsNewest(ts, maxId, now);
    if History(ts, states, fires, maxId, k, now, world, false) && fires != [] {
      TailHistory(ts, states, fires, maxId, k, now, world, false);
      FiresAgain(ts, maxId, now, world(k, id), id);
      RestlessNeverEnds(states[1], states[1..], fires[1..], maxId, k + 1, now, world, id);
    }
  }

  // ----- the same as the sweep ---------------------------------------------------------

  /** Where the loop stands in the sweep: `rest` are the events of the sweep still to come, and
      among the events not newer than `maxId` they are the ones that are due. */
  ghost predicate Pending(ts: Timers, rest: seq<int>, maxId: int, now: Clock) {
    && Wf(ts) && Falling(rest) && maxId < ts.nextId
    && (forall id :: id in rest ==> id <= maxId)
    && (forall e {:trigger e in ts.events} :: e in ts.events && e.id <= maxId ==> (Due(e, now) <==> e.id in rest))
  }

  lemma PendingAtEntry(ts: Timers, now: Clock)
    requires Wf(ts)
    ensures Pending(ts, DueIds(ts.events, now), ts.nextId - 1, now)
  {
    DueIdsAre(ts.events, ts.nextId, now);
    forall e, d | e in ts.events && d in ts.events && e.id == d.id ensures e == d {
    }
  }

  lemma {:induction false} SkipAbsent(ts: Timers, rest: seq<int>, p: nat, k: nat, now: Clock, world: World)
    requires p <= |rest| && forall q :: 0 <= q < p ==> !Has(ts.events, rest[q])
    ensures Sweep(ts, rest, k, now, world) == Sweep(ts, rest[p..], k, now, world)
    decreases p
  {
    if p > 0 {
      assert rest[1..][p - 1..] == rest[p..];
      SkipAbsent(ts, rest[1..], p - 1, k, now, world);
    } else {
      assert rest[0..] == rest;
    }
  }

  /** When the scan meets a due event it is the next one of the sweep that is still there. */
  lemma NextOfSweep(ts: Timers, rest: seq<int>, maxId: int, now: Clock, i: nat) returns (p: nat)
    requires Pending(ts, rest, maxId, now) && i < |ts.events|
    requires ts.events[i].id <= maxId && Due(ts.events[i], now)
    requires forall j {:trigger ts.events[j]} :: 0 <= j < i ==> ts.events[j].id > maxId || !Due(ts.events[j], now)
    ensures p < |rest| && rest[p] == ts.events[i].id && Has(ts.events, rest[p])
    ensures forall q :: 0 <= q < p ==> !Has(ts.events, rest[q])
  {
    var id := ts.events[i].id;
    assert ts.events[i] in ts.events;
    p :| 0 <= p < |rest| && rest[p] == id;
    HasIs(ts.events, id);
    forall q | 0 <= q < p ensures !Has(ts.events, rest[q]) {
      forall j | 0 <= j < |ts.events| ensures ts.events[j].id != rest[q] {
        assert ts.events[j] in ts.events && rest[q] in rest && rest[q] > id;
        assert j > i ==> ts.events[j].id < id;
      }
    }
  }

  lemma PendingAfterFire(ts: Timers, rest: seq<int>, maxId: int, now: Clock, p: nat, r: Reaction)
    requires Pending(ts, rest, maxId, now) && Proper(now) && p < |rest| && Tame(rest[p], r)
    requires forall q :: 0 <= q < p ==> !Has(ts.events, rest[q])
    ensures Pending(Fire(ts, rest[p], now, r), rest[p + 1..], maxId, now)
  {
    var id, u, left := rest[p], Fire(ts, rest[p], now, r), rest[p + 1..];
    assert id in rest && forall x :: x in left ==> x in rest && x < id;
    FireIs(ts, id, now, r);
    forall e {:trigger e in u.events} | e in u.events && e.id <= maxId ensures Due(e, now) <==> e.id in left {
      if e.id == id {
        LaterIsExact(now, r.ret);
        DueIsExact(e, now);
      } else {
        assert e in ts.events;
        HasIs(ts.events, e.id);
        if e.id in rest {
          var q :| 0 <= q < |rest| && rest[q] == e.id;
          assert q > p && left[q - p - 1] == e.id;
        }
      }
    }
  }

  lemma NothingLeft(ts: Timers, rest: seq<int>, k: nat, maxId: int, now: Clock, world: World)
    requires Pending(ts, rest, maxId, now)
    requires forall j {:trigger ts.events[j]} :: 0 <= j < |ts.events| ==> !Fires(ts.events[j], maxId, now)
    ensures Sweep(ts, rest, k, now, world) == (ts, [])
  {
    forall q | 0 <= q < |rest| ensures !Has(ts.events, rest[q]) {
      HasIs(ts.events, rest[q]);
      assert rest[q] in rest;
    }
    SkipAbsent(ts, rest, |rest|, k, now, world);
  }

  /** The next turn fires the next event of the sweep; if its callback is tame, the rest of
      the sweep is what comes afterwards. */
  lemma SweepTurns(ts: Timers, rest: seq<int>, maxId: int, k: nat, now: Clock, world: World)
      returns (p: nat, u: Timers)
    requires Pending(ts, rest, maxId, now) && Proper(now) && !Idle(ts, maxId, now)
    ensures p < |rest| && rest[p] == Firing(ts, maxId, now) && u == Fire(ts, rest[p], now, world(k, rest[p]))
    ensures Tame(rest[p], world(k, rest[p])) ==> Pending(u, rest[p + 1..], maxId, now)
    ensures Sweep(ts, rest, k, now, world).0 == Sweep(u, rest[p + 1..], k + 1, now, world).0
    ensures Sweep(ts, rest, k, now, world).1 == [rest[p]] + Sweep(u, rest[p + 1..], k + 1, now, world).1
  {
    FirstDueFires(ts.events, maxId, now);
    p := NextOfSweep(ts, rest, maxId, now, FirstDue(ts.events, maxId, now));
    var id, left := rest[p], rest[p + 1..];
    SkipAbsent(ts, rest, p, k, now, world);
    if Tame(id, world(k, id)) { PendingAfterFire(ts, rest, maxId, now, p, world(k, id)); }
    assert rest[p..][0] == id && rest[p..][1..] == left;
    u := Fire(ts, id, now, world(k, id));
  }

  lemma IdleIsSwept(ts: Timers, rest: seq<int>, maxId: int, k: nat, now: Clock, world: World)
    requires Pending(ts, rest, maxId, now) && Idle(ts, maxId, now)
    ensures Sweep(ts, rest, k, now, world) == (ts, [])
  {
    FirstDueFires(ts.events, maxId, now);
    NothingLeft(ts, rest, k, maxId, now, world);
  }

  /** All these callbacks, the first of them the k-th to run, are tame. */
  ghost predicate AllTame(fired: seq<int>, k: nat, world: World) {
    forall j {:trigger fired[j]} :: 0 <= j < |fired| ==> Tame(fired[j], world(k + j, fired[j]))
  }

  lemma AllTameCons(id: int, fired: seq<int>, k: nat, world: World)
    ensures AllTame([id] + fired, k, world) <==> Tame(id, world(k, id)) && AllTame(fired, k + 1, world)
  {
    var all := [id] + fired;
    if AllTame(all, k, world) {
      assert all[0] == id;
      forall j {:trigger fired[j]} | 0 <= j < |fired| ensures Tame(fired[j], world(k + 1 + j, fired[j])) {
        assert all[j + 1] == fired[j];
      }
    }
    if Tame(id, world(k, id)) && AllTame(fired, k + 1, world) {
      forall j {:trigger all[j]} | 0 <= j < |all| ensures Tame(all[j], world(k + j, all[j])) {
        assert j > 0 ==> all[j] == fired[j - 1];
      }
    }
  }

  /** From there on, as long as callbacks are tame, the turns are the sweep. */
  lemma {:induction false} TurnsAreSweep(ts: Timers, rest: seq<int>, maxId: int, k: nat, now: Clock, world: World)
      returns (states: seq<Timers>)
    requires Pending(ts, rest, maxId, now) && Proper(now)
    requires AllTame(Sweep(ts, rest, k, now, world).1, k, world)
    ensures var (v, fired) := Sweep(ts, rest, k, now, world);
            History(ts, states, fired, maxId, k, now, world, false) && states[|fired|] == v
    decreases |rest|
  {
    if Idle(ts, maxId, now) {
      IdleIsSwept(ts, rest, maxId, k, now, world);
      states := [ts];
    } else {
      var p, u := SweepTurns(ts, rest, maxId, k, now, world);
      var fired := Sweep(u, rest[p + 1..], k + 1, now, world).1;
      AllTameCons(rest[p], fired, k, world);
      var later := TurnsAreSweep(u, rest[p + 1..], maxId, k + 1, now, world);
      ConsHistory(ts, u, rest[p], later, fired, maxId, k, now, world, false);
      states := [ts] + later;
    }
  }

  /** Each event always asks for the same period. */
  ghost predicate Steady(world: World, ret: int -> int) {
    forall k: nat, id {:trigger world(k, id)} :: world(k, id).ret == ret(id)
  }

  /** A pass that would sweep over an event whose callback is not tame never comes to its
      end. */
  lemma {:induction false} WildSweepNeverEnds(
      ts: Timers, states: seq<Timers>, fires: seq<int>, rest: seq<int>,
      maxId: int, k: nat, now: Clock, world: World, ret: int -> int)
    requires Pending(ts, rest, maxId, now) && Proper(now) && Steady(world, ret)
    requires !AllTame(Sweep(ts, rest, k, now, world).1, k, world)
    ensures !History(ts, states, fires, maxId, k, now, world, false)
    decreases |fires|
  {
    if Idle(ts, maxId, now) {
      IdleIsSwept(ts, rest, maxId, k, now, world);
    } else {
      var p, u := SweepTurns(ts, rest, maxId, k, now, world);
      AllTameCons(rest[p], Sweep(u, rest[p + 1..], k + 1, now, world).1, k, world);
      if !Lasting(ret(rest[p])) {
        FiringIsNewest(ts, maxId, now);
        RestlessNeverEnds(ts, states, fires, maxId, k, now, world, rest[p]);
      } else if History(ts, states, fires, maxId, k, now, world, false) && fires != [] {
        TailHistory(ts, states, fires, maxId, k, now, world, false);
        WildSweepNeverEnds(u, states[1..], fires[1..], rest[p + 1..], maxId, k + 1, now, world, ret);
      }
    }
  }

  // ----- whole passes ------------------------------------------------------------------

  /** The history of a pass over `ts` with the clock at `now`. */
  ghost predicate PassHistory(
      ts: Timers, states: seq<Timers>, fires: seq<int>, now: Clock, world: World, broken: bool)
  {
    History(Skewed(ts, now), states, fires, ts.nextId - 1, 0, now, world, broken)
  }

  /** The pass comes to its end; otherwise it is broken off or goes on for ever. */
  ghost predicate PassEnds(ts: Timers, now: Clock, world: World) {
    exists states, fires :: PassHistory(ts, states, fires, now, world, false)
  }

  /** With tame callbacks a pass ends, and it is the pass of module TimerSpec. */
  lemma TamePassEnds(ts: Timers, now: Clock, world: World) returns (states: seq<Timers>)
    requires Wf(ts) && Proper(now) && AllTame(Pass(ts, now, world).1, 0, world)
    ensures var (v, fired) := Pass(ts, now, world);
            PassHistory(ts, states, fired, now, world, false) && states[|fired|] == v
  {
    var t := Skewed(ts, now);
    SkewedIs(ts, now);
    PendingAtEntry(t, now);
    states := TurnsAreSweep(t, DueIds(t.events, now), t.nextId - 1, 0, now, world);
  }

  /** With callbacks that always ask for the same period, as all callbacks of the program do,
      a pass ends exactly if the callbacks of all events that it sweeps over are tame. */
  lemma PassEndsExactly(ts: Timers, now: Clock, world: World, ret: int -> int)
    requires Wf(ts) && Proper(now) && Steady(world, ret)
    ensures PassEnds(ts, now, world) <==> AllTame(Pass(ts, now, world).1, 0, world)
  {
    var t := Skewed(ts, now);
    if AllTame(Pass(ts, now, world).1, 0, world) {
      var states := TamePassEnds(ts, now, world);
    } else {
      SkewedIs(ts, now);
      PendingAtEntry(t, now);
      forall states, fires ensures !PassHistory(ts, states, fires, now, world, false) {
        WildSweepNeverEnds(t, states, fires, DueIds(t.events, now), t.nextId - 1, 0, now, world, ret);
      }
    }
  }

  /** Nobody deletes an event that asks for a period that is over already. */
  ghost predicate RestlessStay(world: World, ret: int -> int) {
    forall k: nat, x, id {:trigger world(k, x), ret(id)} :: !Lasting(ret(id)) ==> Cancel(id) !in world(k, x).ops
  }

  lemma TameAt(world: World, ret: int -> int, k: nat, id: int)
    requires HarmlessAll(world) && Steady(world, ret)
    ensures Tame(id, world(k, id)) <==> Lasting(ret(id))
  {
  }

  lemma PassEndsFrom(ts: Timers, now: Clock, world: World, ret: int -> int, entry: seq<Event>)
    requires Wf(ts) && Proper(now) && HarmlessAll(world) && Steady(world, ret) && RestlessStay(world, ret)
    requires var (v, fired) := Pass(ts, now, world); ExactPass(entry, ts.nextId, now, world, v, fired)
    ensures PassEnds(ts, now, world) <==> forall e :: e in entry && Due(e, now) ==> Lasting(ret(e.id))
  {
    PassEndsExactly(ts, now, world, ret);
    var fired := Pass(ts, now, world).1;
    forall e | e in entry && Due(e, now) && !Lasting(ret(e.id)) ensures !AllTame(fired, 0, world) {
      assert Spared(fired, e.id, 0, world);
      var j: nat :| j < |fired| && fired[j] == e.id;
      TameAt(world, ret, j, e.id);
    }
    if !AllTame(fired, 0, world) {
      var j: nat :| j < |fired| && !Tame(fired[j], world(0 + j, fired[j]));
      TameAt(world, ret, j, fired[j]);
      assert fired[j] in fired;
    }
  }

  /** If moreover no callback deletes its own event and nobody one that asks for a period
      that is over already, it is enough to look at what is due when the pass begins, with its
      deadlines as they are, or without seconds if the clock has gone back. */
  lemma PassEndsIfDueLast(ts: Timers, now: Clock, world: World, ret: int -> int)
    requires Wf(ts) && Proper(now) && HarmlessAll(world) && Steady(world, ret) && RestlessStay(world, ret)
    ensures ts.lastTime <= now.sec ==>
              (PassEnds(ts, now, world) <==> forall e :: e in ts.events && Due(e, now) ==> Lasting(ret(e.id)))
    ensures now.sec < ts.lastTime ==>
              (PassEnds(ts, now, world) <==>
                 forall e :: e in WithoutSeconds(ts.events) && Due(e, now) ==> Lasting(ret(e.id)))
  {
    PassIsExact(ts, now, world);
    if ts.lastTime <= now.sec {
      PassEndsFrom(ts, now, world, ret, ts.events);
    } else {
      PassEndsFrom(ts, now, world, ret, WithoutSeconds(ts.events));
    }
  }

  ghost function AsksForZero(k: nat, id: int): Reaction {
    Reaction([], 0)
  }

  /** For instance: one event is due, of a tick with period 0. */
  lemma ZeroTickNeverEnds()
    ensures !PassEnds(Timers([Event(0, 0, 0, true)], 1, 0, [], [true]), Clock(0, 0), AsksForZero)
  {
    var ts, now, ret := Timers([Event(0, 0, 0, true)], 1, 0, [], [true]), Clock(0, 0), (id: int) => 0;
    assert ts.events[0].id == 0;
    PassEndsIfDueLast(ts, now, AsksForZero, ret);
    assert ts.events[0] in ts.events;
  }
}

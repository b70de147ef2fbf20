/** The timer list as the program keeps it: heap nodes linked by `next`, changed in place,
    also by the callbacks that a firing pass runs. */
module Timers {
  import opened TimerSpec
  import opened TimerTurns

  const OK: int := 0
  const ERROR: int := -1

  class TimeEvent {
    const id: int
    const fin: bool
    var whenSec: int
    var whenMs: int
    var next: TimeEvent?

    constructor (id: int, at: Clock, fin: bool, next: TimeEvent?)
      ensures this.id == id && whenSec == at.sec && whenMs == at.ms && this.fin == fin && this.next == next
    {
      this.id := id;
      this.fin := fin;
      whenSec, whenMs := at.sec, at.ms;
      this.next := next;
    }
  }

  ghost function NodeAt(nodes: seq<TimeEvent>, i: int): TimeEvent? {
    if 0 <= i < |nodes| then nodes[i] else null
  }

  lemma OneMoreFired(fires: seq<int>, k: nat)
    requires k < |fires|
    ensures fires[..k] + [fires[k]] == fires[..k + 1]
  {
  }

  /** The timer fields of lib_global_t. */
  class TimerList {
    var timeHead: TimeEvent?
    var timeNextId: int
    var lastTime: int
    var finalized: seq<int>   // the finalizers that have been called

    ghost var nodes: seq<TimeEvent>
    ghost var model: TimerSpec.Timers

    ghost predicate Valid()
      reads this, nodes
    {
      && Descending(model.events, model.nextId)
      && |nodes| == |model.events|
      && timeHead == NodeAt(nodes, 0)
      && (forall i {:trigger nodes[i].next} {:trigger nodes[i].whenSec} {:trigger model.events[i]} ::
            0 <= i < |nodes| ==>
              && nodes[i].next == NodeAt(nodes, i + 1)
              && model.events[i] == Event(nodes[i].id, nodes[i].whenSec, nodes[i].whenMs, nodes[i].fin))
      && timeNextId == model.nextId && lastTime == model.lastTime && finalized == model.finalized
    }

    constructor ()
      ensures Valid() && Empty(model)
    {
      timeHead := null;
      timeNextId, lastTime := 0, 0;
      finalized := [];
      nodes := [];
      model := TimerSpec.Timers([], 0, 0, [], []);
    }

    method CreateTimeEvent(now: Clock, delay: int, fin: bool) returns (id: int)
      requires Valid()
      modifies this
      ensures Valid() && model == Add(old(model), now, delay, fin) && id == old(model).nextId
      ensures |nodes| > 0 && fresh(nodes[0]) && nodes == [nodes[0]] + old(nodes)
      ensures nodes[0].id == id && timeNextId == old(timeNextId) + 1
      ensures Proper(now) ==> nodes[0].whenSec * 1000 + nodes[0].whenMs == Millis(now) + delay
    {
      id := timeNextId;
      timeNextId := timeNextId + 1;
      var te := new TimeEvent(id, Later(now, delay), fin, timeHead);
      timeHead := te;
      model := Add(model, now, delay, fin);
      assert Descending(model.events, model.nextId);
      nodes := [te] + nodes;
      forall j {:trigger model.events[j]} | 0 < j < |nodes|
        ensures nodes[j].next == NodeAt(nodes, j + 1)
        ensures model.events[j] == Event(nodes[j].id, nodes[j].whenSec, nodes[j].whenMs, nodes[j].fin) {
        assert nodes[j] == old(nodes)[j - 1] && model.events[j] == old(model).events[j - 1];
      }
      if Proper(now) { LaterIsExact(now, delay); }
    }

    method DelTime(id: int) returns (r: int)
      requires Valid()
      modifies this, set n | n in nodes
      ensures Valid() && model == Remove(old(model), id)
      ensures r == if Has(old(model).events, id) then OK else ERROR
      ensures timeNextId == old(timeNextId)
      ensures forall n :: n in nodes ==> n in old(nodes)
    {
      var te, prev: TimeEvent? := timeHead, null;
      ghost var i := 0;
      while te != null
        invariant 0 <= i <= |nodes| && te == NodeAt(nodes, i) && prev == NodeAt(nodes, i - 1)
        invariant forall j {:trigger model.events[j]} :: 0 <= j < i ==> model.events[j].id != id
        decreases |nodes| - i
      {
        if te.id == id {
          assert model.events[i].id == id;
          RemoveAt(model, i);
          Unlink(te, prev, i);
          return OK;
        }
        assert model.events[i].id == te.id;
        prev := te;
        te := te.next;
        i := i + 1;
      }
      r := ERROR;
      assert !Has(model.events, id);
    }

    method Unlink(te: TimeEvent, prev: TimeEvent?, ghost i: nat)
      requires Valid() && i < |nodes| && te == nodes[i] && prev == NodeAt(nodes, i - 1)
      modifies this, set n | n in nodes
      ensures Valid() && model == Remove(old(model), te.id) && timeNextId == old(timeNextId)
      ensures nodes == old(nodes[..i] + nodes[i + 1..])
    {
      assert model.events[i].id == te.id && model.events[i].fin == te.fin;
      RemoveAt(model, i);
      Splice(te, prev);
      model, nodes := Dropped(model, i), nodes[..i] + nodes[i + 1..];
      Unlinked(i);
    }

    method Splice(te: TimeEvent, prev: TimeEvent?)
      modifies this`timeHead, this`finalized, if prev == null then {} else {prev}
      ensures timeHead == if prev == null then old(te.next) else old(timeHead)
      ensures prev != null ==>
                prev.next == old(te.next) && prev.whenSec == old(prev.whenSec) && prev.whenMs == old(prev.whenMs)
      ensures finalized == if te.fin then old(finalized) + [te.id] else old(finalized)
    {
      if prev == null {
        timeHead := te.next;
      } else {
        prev.next := te.next;
      }
      if te.fin {
        finalized := finalized + [te.id];
      }
    }

    twostate lemma Unlinked(i: nat)
      requires old(Valid()) && i < |old(nodes)|
      requires nodes == old(nodes)[..i] + old(nodes)[i + 1..] && model == Dropped(old(model), i)
      requires Descending(model.events, model.nextId)
      requires timeNextId == old(timeNextId) && lastTime == old(lastTime) && finalized == model.finalized
      requires timeHead == if i == 0 then old(nodes[0].next) else old(timeHead)
      requires forall n {:trigger n.next} :: n in old(nodes) ==>
                 && n.whenSec == old(n.whenSec) && n.whenMs == old(n.whenMs)
                 && n.next == if i > 0 && n == old(nodes)[i - 1] then old(nodes[i].next) else old(n.next)
      ensures Valid()
    {
      forall j {:trigger model.events[j]} | 0 <= j < |nodes|
        ensures nodes[j].next == NodeAt(nodes, j + 1)
        ensures model.events[j] == Event(nodes[j].id, nodes[j].whenSec, nodes[j].whenMs, nodes[j].fin) {
        ghost var k := if j < i then j else j + 1;
        assert nodes[j] == old(nodes)[k] && model.events[j] == old(model).events[k];
        if i > 0 {
          assert old(model).events[i - 1].id == old(nodes)[i - 1].id;
        }
      }
    }

    /** search_nearest_time; the clock is read after the list has been searched. */
    method SearchNearestTime(now: Clock) returns (wait: int)
      requires Valid()
      ensures model.events == [] ==> wait == 1000
      ensures model.events != [] ==>
                exists i: nat :: IsNearest(model.events, i) && wait == WaitFor(model.events[i], now)
    {
      var te, nearest: TimeEvent? := timeHead, null;
      ghost var i, n := 0, 0;
      while te != null
        invariant 0 <= i <= |nodes| && te == NodeAt(nodes, i)
        invariant if i == 0 then nearest == null else 0 <= n < i && nearest == nodes[n]
        invariant i > 0 ==> forall j {:trigger model.events[j]} :: 0 <= j < i ==>
                    !Earlier(model.events[j], model.events[n])
        decreases |nodes| - i
      {
        assert model.events[i].sec == te.whenSec && model.events[i].ms == te.whenMs;
        assert i > 0 ==> model.events[n].sec == nearest.whenSec && model.events[n].ms == nearest.whenMs;
        if nearest == null || te.whenSec < nearest.whenSec
           || (te.whenSec == nearest.whenSec && te.whenMs < nearest.whenMs) {
          nearest := te;
          n := i;
        }
        te := te.next;
        i := i + 1;
      }
      if nearest != null {
        assert model.events[n].sec == nearest.whenSec && model.events[n].ms == nearest.whenMs;
        assert IsNearest(model.events, n);
        wait := WaitFor(Event(nearest.id, nearest.whenSec, nearest.whenMs, nearest.fin), now);
      } else {
        wait := 1000;
      }
    }

    method ZeroSeconds()
      requires Valid()
      modifies (set n | n in nodes)`whenSec
      ensures forall j {:trigger nodes[j]} :: 0 <= j < |nodes| ==> nodes[j].whenSec == 0
    {
      var te := timeHead;
      ghost var i := 0;
      while te != null
        invariant 0 <= i <= |nodes| && te == NodeAt(nodes, i)
        invariant forall j {:trigger nodes[j]} :: 0 <= j < i ==> nodes[j].whenSec == 0
        decreases |nodes| - i
      {
        assert old(nodes[i].next) == te.next;
        te.whenSec := 0;
        te := te.next;
        i := i + 1;
      }
    }

    /** The correction for a clock that went back. */
    method ResetSeconds()
      requires Valid()
      modifies this`model, set n | n in nodes
      ensures Valid() && nodes == old(nodes)
      ensures model == old(model).(events := seq(|old(model).events|,
                i requires 0 <= i < |old(model).events| => old(model).events[i].(sec := 0)))
    {
      ZeroSeconds();
      ghost var before := model.events;
      model := model.(events := seq(|before|, j requires 0 <= j < |before| => before[j].(sec := 0)));
      forall j {:trigger model.events[j]} | 0 <= j < |nodes|
        ensures nodes[j].next == NodeAt(nodes, j + 1)
        ensures model.events[j] == Event(nodes[j].id, nodes[j].whenSec, nodes[j].whenMs, nodes[j].fin) {
        assert before[j] == Event(nodes[j].id, old(nodes[j].whenSec), nodes[j].whenMs, nodes[j].fin);
      }
    }

    /** What a callback does to the timers, through the functions above. */
    method RunCallback(now: Clock, ops: seq<TimerOp>)
      requires Valid()
      modifies this, set n | n in nodes
      ensures Valid() && model == ApplyAll(old(model), now, ops) && timeNextId >= old(timeNextId)
      ensures forall n :: n in nodes ==> n in old(nodes) || (fresh(n) && n.id >= old(timeNextId))
      decreases |ops|
    {
      if ops != [] {
        RunCallback(now, ops[..|ops| - 1]);
        assert forall n :: n in nodes ==> n in old(nodes) || fresh(n);
        match ops[|ops| - 1]
        case Start(delay, fin) => var _ := CreateTimeEvent(now, delay, fin);
        case Cancel(id) => var _ := DelTime(id);
      }
    }

    /** An event that is still in the list has the node it had before. */
    twostate lemma SameNode(te: TimeEvent) returns (i: nat)
      requires old(Valid()) && Valid() && te in old(nodes) && Has(model.events, te.id)
      requires forall n :: n in nodes ==> n in old(nodes) || n.id >= old(timeNextId)
      ensures i < |nodes| && te == nodes[i]
    {
      var k: nat :| k < |old(nodes)| && old(nodes)[k] == te;
      assert old(model).events[k].id == te.id;
      i :| 0 <= i < |model.events| && model.events[i].id == te.id;
      assert nodes[i].id == te.id && nodes[i] in old(nodes);
      var m: nat :| m < |old(nodes)| && old(nodes)[m] == nodes[i];
      assert old(model).events[m].id == te.id;
    }

    /** One due event: run its callback, then put it off or delete it.  `freed`: the callback
        has deleted the event that it asks to put off, and the program is about to write to
        the node that del_time gave back; the model stops there. */
    method FireEvent(te: TimeEvent, now: Clock, r: Reaction) returns (freed: bool)
      requires Valid() && Wf(model) && te in nodes
      modifies this, set n | n in nodes
      ensures Valid() && Wf(model) && freed == !Harmless(te.id, r)
      ensures model == if freed then ApplyAll(old(model), now, r.ops) else Fire(old(model), te.id, now, r)
      ensures freed ==> te !in nodes
      ensures forall n :: n in nodes ==> n in old(nodes) || fresh(n)
    {
      ghost var k :| 0 <= k < |nodes| && nodes[k] == te;
      ghost var e := model.events[k];
      assert e.id == te.id && e in model.events;
      FireIs(model, te.id, now, r);
      ApplyAllIs(model, now, r.ops);
      RunCallback(now, r.ops);
      if r.ret == NOMORE {
        var _ := DelTime(te.id);
        return false;
      }
      freed := Cancel(te.id) in r.ops;
      if freed {
        forall i | 0 <= i < |nodes| ensures nodes[i] != te {
          assert model.events[i] in model.events && model.events[i].id == nodes[i].id;
        }
      } else {
        // the event was not cancelled, so its node is still in the list
        assert e in model.events && Has(model.events, te.id);
        ghost var i := SameNode(te);
        PutOff(te, Later(now, r.ret), i);
      }
    }

    method PutOff(te: TimeEvent, at: Clock, ghost i: nat)
      requires Valid() && i < |nodes| && te == nodes[i]
      modifies this`model, te
      ensures Valid() && model == old(model).(events := Retimed(old(model).events, te.id, at)) && nodes == old(nodes)
    {
      assert model.events[i].id == te.id;
      te.whenSec, te.whenMs := at.sec, at.ms;
      ghost var was := model.events;
      model := model.(events := Retimed(was, te.id, at));
      forall j {:trigger model.events[j]} | 0 <= j < |nodes|
        ensures nodes[j].next == NodeAt(nodes, j + 1)
        ensures model.events[j] == Event(nodes[j].id, nodes[j].whenSec, nodes[j].whenMs, nodes[j].fin) {
        assert was[j].id == nodes[j].id;
        assert j != i ==> nodes[j] != te;
      }
    }

    method CorrectSkew(now: Clock)
      requires Valid()
      modifies this`model, this`lastTime, set n | n in nodes
      ensures Valid() && model == Skewed(old(model), now) && nodes == old(nodes)
      ensures lastTime == now.sec
      ensures old(lastTime) <= now.sec ==> model.events == old(model).events
      ensures now.sec < old(lastTime) ==> model.events == WithoutSeconds(old(model).events)
    {
      if now.sec < lastTime {
        ResetSeconds();
      }
      lastTime := now.sec;
      model := model.(lastTime := now.sec);
    }

    /** The scan has met the first due event: it is the next of the history, and fires. */
    method TakeTurn(te: TimeEvent, now: Clock, k: nat, world: World, ghost maxId: int, ghost i: nat,
                    ghost states: seq<TimerSpec.Timers>, ghost fires: seq<int>, ghost broken: bool)
      returns (freed: bool)
      requires Valid() && Wf(model) && Proper(now)
      requires i < |nodes| && te == nodes[i] && te.id <= maxId && Due(model.events[i], now)
      requires forall j {:trigger model.events[j]} :: 0 <= j < i ==> !Fires(model.events[j], maxId, now)
      requires states != [] && History(states[0], states, fires, maxId, 0, now, world, broken)
      requires k <= |fires| && model == states[k]
      modifies this, set n | n in nodes
      ensures Valid() && Wf(model)
      ensures if freed
              then broken && k == |fires| && !Idle(states[k], maxId, now)
                   && model == Cut(states[k], maxId, k, now, world)
              else k < |fires| && model == states[k + 1] && fires[k] == te.id
      ensures forall n :: n in nodes ==> n in old(nodes) || fresh(n)
    {
      assert model.events[i].id == te.id;
      NextTurn(states[0], states, fires, maxId, 0, now, world, broken, k, i);
      freed := FireEvent(te, now, world(k, te.id));
    }

    /** process_time_event with the clock standing still at `now` and callbacks that behave
        as `world` says, for every pass that ends or breaks off, that is, has a history: it
        goes through that history. */
    method ProcessTimeEvent(now: Clock, world: World, ghost states: seq<TimerSpec.Timers>, ghost fires: seq<int>,
                            ghost broken: bool)
      returns (processed: nat, freed: bool, ghost fired: seq<int>)
      requires Valid() && Wf(model) && Proper(now)
      requires PassHistory(model, states, fires, now, world, broken)
      modifies this, set n | n in nodes
      ensures Valid() && Wf(model) && freed == broken && fired == fires && lastTime == now.sec
      ensures processed == |fires| + if freed then 1 else 0
      ensures if freed
              then !Idle(states[|fires|], old(model).nextId - 1, now)
                   && model == Cut(states[|fires|], old(model).nextId - 1, |fires|, now, world)
              else model == states[|fires|]
    {
      CorrectSkew(now);
      SkewedIs(old(model), now);
      processed, freed, fired := RunDue(now, world, states, fires, broken);
      TurnsKeepTime(states[0], states, fires, old(model).nextId - 1, 0, now, world, broken);
    }

    method RunDue(now: Clock, world: World, ghost states: seq<TimerSpec.Timers>, ghost fires: seq<int>,
                  ghost broken: bool)
      returns (processed: nat, freed: bool, ghost fired: seq<int>)
      requires Valid() && Wf(model) && Proper(now)
      requires History(model, states, fires, timeNextId - 1, 0, now, world, broken)
      modifies this, set n | n in nodes
      ensures Valid() && Wf(model) && freed == broken && fired == fires
      ensures processed == |fires| + if freed then 1 else 0
      ensures if freed
              then !Idle(states[|fires|], old(timeNextId) - 1, now)
                   && model == Cut(states[|fires|], old(timeNextId) - 1, |fires|, now, world)
              else model == states[|fires|]
    {
      processed, freed, fired := 0, false, [];
      var maxId := timeNextId - 1;
      var te := timeHead;
      ghost var i := 0;
      while te != null
        invariant Valid() && Wf(model) && !freed
        invariant forall n :: n in nodes ==> n in old(nodes) || fresh(n)
        invariant 0 <= i <= |nodes| && te == NodeAt(nodes, i)
        invariant forall j {:trigger model.events[j]} :: 0 <= j < i ==> !Fires(model.events[j], maxId, now)
        invariant processed <= |fires| && model == states[processed] && fired == fires[..processed]
        decreases |fires| - processed, |nodes| - i
      {
        assert model.events[i] == Event(te.id, te.whenSec, te.whenMs, te.fin);
        if te.id > maxId {
          te := te.next;
          i := i + 1;
        } else if now.sec > te.whenSec || (now.sec == te.whenSec && now.ms >= te.whenMs) {
          freed := TakeTurn(te, now, processed, world, maxId, i, states, fires, broken);
          processed := processed + 1;
          if freed {
            return;
          }
          OneMoreFired(fires, processed - 1);
          fired := fired + [te.id];
          te := timeHead;
          i := 0;
        } else {
          te := te.next;
          i := i + 1;
        }
      }
      LastScan(states[0], states, fires, maxId, 0, now, world, broken, processed);
    }
  }
}

/** Deferred callbacks on values: what coroutines defer and run, in any interleaving.  A
    callback may defer again, and it may yield, so that others act before the next is run. */
module DeferSpec {

  /** The task of main, to which a callback deferred outside every coroutine goes. */
  const MAIN: int := 0

  /** Where the execution of create_func stands: in the body or in a deferred callback, PHP
      code both, or at the head of the loop behind the body. */
  datatype Phase = InCode | AtLoop

  datatype State = State(
    phases: map<int, Phase>,       // of the tasks of the coroutines that have not ended
    stacks: map<int, seq<int>>,    // defer_tasks of a task, absent while it is null; top last
    owner: map<int, int>,          // the task that deferred a callback
    before: map<int, nat>,         // how many callbacks had been started when it was deferred
    nextId: int,                   // callbacks are numbered in the order they are deferred
    ran: seq<int>,                 // the callbacks started, in order
    ended: set<int>)

  /** Begin: a coroutine's body.  Return: of the body or of a callback.  Turn: the test of the
      loop, and what it leads to. */
  datatype Action =
    | Begin(task: int)
    | Defer(task: int)
    | Return(task: int)
    | Turn(task: int)

  function Init(): State {
    State(map[], map[], map[], map[], 0, [], {})
  }

  predicate Stands(s: State, t: int, p: Phase) {
    t in s.phases && s.phases[t] == p
  }

  /** Only control decides what can happen: code that runs defers and returns, a loop that is
      reached turns.  Main runs code but not create_func. */
  predicate Legal(s: State, a: Action) {
    match a
    case Begin(t) => t != MAIN && t !in s.phases && t !in s.ended
    case Defer(t) => t == MAIN || Stands(s, t, InCode)
    case Return(t) => Stands(s, t, InCode)
    case Turn(t) => Stands(s, t, AtLoop)
  }

  predicate Drained(s: State, t: int) {
    t !in s.stacks || s.stacks[t] == []
  }

  function Next(s: State, a: Action): State
    requires Legal(s, a)
  {
    match a
    case Begin(t) => s.(phases := s.phases[t := InCode])
    case Defer(t) =>
      s.(stacks := s.stacks[t := (if t in s.stacks then s.stacks[t] else []) + [s.nextId]],
         owner := s.owner[s.nextId := t],
         before := s.before[s.nextId := |s.ran|],
         nextId := s.nextId + 1)
    case Return(t) => s.(phases := s.phases[t := AtLoop])
    case Turn(t) =>
      if Drained(s, t) then
        s.(phases := s.phases - {t}, stacks := s.stacks - {t}, ended := s.ended + {t})
      else
        var n := |s.stacks[t]| - 1;
        s.(phases := s.phases[t := InCode],
           stacks := s.stacks[t := s.stacks[t][..n]],
           ran := s.ran + [s.stacks[t][n]])
  }

  ghost predicate LegalRun(s: State, actions: seq<Action>)
    decreases |actions|
  {
    actions == [] || (Legal(s, actions[0]) && LegalRun(Next(s, actions[0]), actions[1..]))
  }

  ghost function Run(s: State, actions: seq<Action>): State
    requires LegalRun(s, actions)
    decreases |actions|
  {
    if actions == [] then s else Run(Next(s, actions[0]), actions[1..])
  }

  ghost predicate RanIn(ran: seq<int>, id: int, from: int, to: int) {
    exists j :: 0 <= j < |ran| && from <= j < to && ran[j] == id
  }

  ghost predicate HasRun(s: State, id: int) {
    RanIn(s.ran, id, 0, |s.ran|)
  }

  ghost predicate Pending(s: State, id: int) {
    id in s.owner && s.owner[id] in s.stacks && id in s.stacks[s.owner[id]]
  }

  ghost predicate Stacks(s: State) {
    && (forall t, i {:trigger s.stacks[t][i]} :: t in s.stacks && 0 <= i < |s.stacks[t]| ==>
          s.stacks[t][i] in s.owner && s.owner[s.stacks[t][i]] == t)
    && (forall t, i, j {:trigger s.stacks[t][i], s.stacks[t][j]} ::
          t in s.stacks && 0 <= i < j < |s.stacks[t]| ==> s.stacks[t][i] < s.stacks[t][j])
    && (forall t {:trigger t in s.ended} :: t in s.ended ==> t !in s.stacks && t !in s.phases && t != MAIN)
    && MAIN !in s.phases
    && s.owner.Keys == s.before.Keys
    && (forall id {:trigger id in s.owner} :: id in s.owner ==> id < s.nextId)
  }

  /** Every callback deferred is either waiting in its task's stack or has been started. */
  ghost predicate WaitsOrHasRun(s: State) {
    forall id {:trigger id in s.owner} :: id in s.owner ==> (Pending(s, id) <==> !HasRun(s, id))
  }

  /** None is started twice, or before it is deferred, or by main. */
  ghost predicate Starts(s: State) {
    && (forall i {:trigger s.ran[i]} :: 0 <= i < |s.ran| ==>
          s.ran[i] in s.owner && s.owner[s.ran[i]] != MAIN && s.ran[i] in s.before && s.before[s.ran[i]] <= i)
    && (forall i, j :: 0 <= i < j < |s.ran| ==> s.ran[i] != s.ran[j])
  }

  ghost predicate Once(s: State) {
    WaitsOrHasRun(s) && Starts(s)
  }

  /** If a task deferred `b` after `a` and before `a` was started, then `b` is started first. */
  ghost predicate Lifo(s: State) {
    forall a, b, i {:trigger s.owner[a], s.owner[b], s.ran[i]} ::
      && a in s.owner && b in s.owner && b in s.before && s.owner[a] == s.owner[b] && a < b
      && s.before[b] <= i < |s.ran| && s.ran[i] == a
      ==> RanIn(s.ran, b, s.before[b], i)
  }

  ghost predicate Inv(s: State) {
    Stacks(s) && Once(s) && Lifo(s) && forall id {:trigger s.before[id]} :: id in s.before ==> s.before[id] <= |s.ran|
  }

  /** The loop finds a callback. */
  predicate Pops(s: State, t: int) {
    Legal(s, Turn(t)) && !Drained(s, t)
  }

  lemma StacksDefer(s: State, t: int)
    requires Stacks(s) && Legal(s, Defer(t))
    ensures Stacks(Next(s, Defer(t)))
  {
  }

  lemma StacksTurn(s: State, t: int)
    requires Stacks(s) && Legal(s, Turn(t))
    ensures Stacks(Next(s, Turn(t)))
  {
  }

  lemma Lifted(ran: seq<int>, x: int, id: int, from: int, to: int)
    ensures RanIn(ran, id, from, to) ==> RanIn(ran + [x], id, from, to)
    ensures to <= |ran| && RanIn(ran + [x], id, from, to) ==> RanIn(ran, id, from, to)
    ensures from <= |ran| < to ==> RanIn(ran + [x], x, from, to)
    ensures RanIn(ran + [x], id, from, |ran| + 1) ==> id == x || RanIn(ran, id, from, |ran|)
  {
    if RanIn(ran, id, from, to) {
      var j :| 0 <= j < |ran| && from <= j < to && ran[j] == id;
      assert (ran + [x])[j] == id;
    }
    if RanIn(ran + [x], id, from, to) && to <= |ran| {
      var j :| 0 <= j < |ran + [x]| && from <= j < to && (ran + [x])[j] == id;
      assert ran[j] == id;
    }
    assert (ran + [x])[|ran|] == x;
    if RanIn(ran + [x], id, from, |ran| + 1) && id != x {
      var j :| 0 <= j < |ran + [x]| && from <= j < |ran| + 1 && (ran + [x])[j] == id;
      assert ran[j] == id;
    }
  }

  lemma StartedAdded(ran: seq<int>, x: int)
    ensures forall id {:trigger RanIn(ran + [x], id, 0, |ran| + 1)} ::
              RanIn(ran + [x], id, 0, |ran| + 1) <==> RanIn(ran, id, 0, |ran|) || id == x
  {
    forall id ensures RanIn(ran + [x], id, 0, |ran| + 1) <==> RanIn(ran, id, 0, |ran|) || id == x {
      Lifted(ran, x, id, 0, |ran|);
      Lifted(ran, x, id, 0, |ran| + 1);
    }
  }

  lemma OnceDefer(s: State, t: int)
    requires Inv(s) && Legal(s, Defer(t))
    ensures Once(Next(s, Defer(t)))
  {
    var n := Next(s, Defer(t));
    assert n.stacks[t][|n.stacks[t]| - 1] == s.nextId;
    forall id | id in s.owner ensures Pending(n, id) <==> Pending(s, id) {
      if s.owner[id] == t && t in s.stacks {
        assert n.stacks[t] == s.stacks[t] + [s.nextId];
      }
    }
  }

  lemma PendingPopped(s: State, t: int)
    requires Stacks(s) && Pops(s, t)
    ensures var n, m := Next(s, Turn(t)), |s.stacks[t]| - 1;
            forall id {:trigger Pending(n, id)} :: id in s.owner ==>
              (Pending(n, id) <==> Pending(s, id) && id != s.stacks[t][m])
  {
    var n, m := Next(s, Turn(t)), |s.stacks[t]| - 1;
    var x := s.stacks[t][m];
    forall id | id in s.owner ensures Pending(n, id) <==> Pending(s, id) && id != x {
      if s.owner[id] == t {
        assert s.stacks[t] == n.stacks[t] + [x];
      }
    }
  }

  lemma TopHasNotRun(s: State, t: int)
    requires Inv(s) && Pops(s, t)
    ensures var x := s.stacks[t][|s.stacks[t]| - 1];
            && x in s.owner && s.owner[x] == t && x in s.before
            && forall i :: 0 <= i < |s.ran| ==> s.ran[i] != x
  {
    var x := s.stacks[t][|s.stacks[t]| - 1];
    assert x in s.owner && Pending(s, x);
    forall i | 0 <= i < |s.ran| ensures s.ran[i] != x {
      assert s.ran[i] == x ==> HasRun(s, x);
    }
  }

  lemma RanAfter(s: State, t: int)
    requires Pops(s, t)
    ensures var n, x := Next(s, Turn(t)), s.stacks[t][|s.stacks[t]| - 1];
            forall id {:trigger RanIn(n.ran, id, 0, |n.ran|)} ::
              RanIn(n.ran, id, 0, |n.ran|) <==> RanIn(s.ran, id, 0, |s.ran|) || id == x
  {
    var n, x := Next(s, Turn(t)), s.stacks[t][|s.stacks[t]| - 1];
    var all := s.ran + [x];
    assert n.ran == all && |all| == |s.ran| + 1;
    StartedAdded(s.ran, x);
    forall id ensures RanIn(all, id, 0, |all|) <==> RanIn(s.ran, id, 0, |s.ran|) || id == x {
      assert RanIn(all, id, 0, |s.ran| + 1) <==> RanIn(all, id, 0, |all|);
    }
  }

  lemma OnceRun(s: State, t: int)
    requires Inv(s) && Pops(s, t)
    ensures Once(Next(s, Turn(t)))
  {
    TopHasNotRun(s, t);
    StartsRun(s, t);
    PendingPopped(s, t);
    RanAfter(s, t);
    WaitsOrHasRunRun(s, t);
  }

  lemma StartsRun(s: State, t: int)
    requires Starts(s) && Pops(s, t) && t != MAIN
    requires var x := s.stacks[t][|s.stacks[t]| - 1];
             && x in s.owner && s.owner[x] == t && x in s.before
             && forall i :: 0 <= i < |s.ran| ==> s.ran[i] != x
    requires forall id {:trigger s.before[id]} :: id in s.before ==> s.before[id] <= |s.ran|
    ensures Starts(Next(s, Turn(t)))
  {
    var n := Next(s, Turn(t));
    assert forall i {:trigger n.ran[i]} :: 0 <= i < |s.ran| ==> n.ran[i] == s.ran[i];
  }

  lemma WaitsOrHasRunRun(s: State, t: int)
    requires WaitsOrHasRun(s) && Pops(s, t)
    requires var n, x := Next(s, Turn(t)), s.stacks[t][|s.stacks[t]| - 1];
             && (forall id {:trigger Pending(n, id)} ::
                   id in s.owner ==> (Pending(n, id) <==> Pending(s, id) && id != x))
             && (forall id {:trigger RanIn(n.ran, id, 0, |n.ran|)} ::
                   RanIn(n.ran, id, 0, |n.ran|) <==> RanIn(s.ran, id, 0, |s.ran|) || id == x)
    ensures WaitsOrHasRun(Next(s, Turn(t)))
  {
  }

  lemma OnceFinish(s: State, t: int)
    requires Inv(s) && Legal(s, Turn(t)) && Drained(s, t)
    ensures Once(Next(s, Turn(t)))
  {
    var n := Next(s, Turn(t));
    forall id | id in s.owner ensures Pending(n, id) <==> Pending(s, id) {
    }
  }

  lemma LifoNext(s: State, a: Action)
    requires Inv(s) && Legal(s, a)
    ensures Lifo(Next(s, a))
  {
    var n := Next(s, a);
    if a.Turn? && !Drained(s, a.task) {
      var m := |s.stacks[a.task]| - 1;
      var x := s.stacks[a.task][m];
      forall c, b, i {:trigger n.owner[c], n.owner[b], n.ran[i]} |
        && c in n.owner && b in n.owner && b in n.before && n.owner[c] == n.owner[b] && c < b
        && n.before[b] <= i < |n.ran| && n.ran[i] == c
        ensures RanIn(n.ran, b, n.before[b], i) {
        Lifted(s.ran, x, b, n.before[b], i);
        if i == |s.ran| {
          TopGoesLast(s, a.task, b);
        } else {
          assert s.ran[i] == c;
        }
      }
    }
  }

  /** Whatever its task deferred after the callback at the top has been started. */
  lemma TopGoesLast(s: State, t: int, b: int)
    requires Inv(s) && Pops(s, t) && b in s.owner && s.owner[b] == t
    requires b > s.stacks[t][|s.stacks[t]| - 1]
    ensures RanIn(s.ran, b, s.before[b], |s.ran|)
  {
    assert !Pending(s, b);
    assert HasRun(s, b);
    var j :| 0 <= j < |s.ran| && s.ran[j] == b;
    assert s.before[s.ran[j]] <= j;
  }

  lemma PhaseOnly(s: State, n: State)
    requires Inv(s) && n == s.(phases := n.phases) && MAIN !in n.phases
    requires forall t :: t in s.ended ==> t !in n.phases
    ensures Inv(n)
  {
    assert forall id {:trigger Pending(n, id)} :: Pending(n, id) <==> Pending(s, id);
    assert forall id {:trigger HasRun(n, id)} :: HasRun(n, id) <==> HasRun(s, id);
  }

  lemma InvNext(s: State, a: Action)
    requires Inv(s) && Legal(s, a)
    ensures Inv(Next(s, a))
  {
    match a {
      case Defer(t) => StacksDefer(s, t); OnceDefer(s, t);
      case Turn(t) =>
        StacksTurn(s, t);
        if Drained(s, t) { OnceFinish(s, t); } else { OnceRun(s, t); }
      case _ => PhaseOnly(s, Next(s, a));
    }
    LifoNext(s, a);
  }

  lemma {:induction false} InvRun(s: State, actions: seq<Action>)
    requires Inv(s) && LegalRun(s, actions)
    ensures Inv(Run(s, actions))
    decreases |actions|
  {
    if actions != [] {
      InvNext(s, actions[0]);
      InvRun(Next(s, actions[0]), actions[1..]);
    }
  }

  /** In any interleaving: every callback that a coroutine deferred has been started by the
      time the coroutine ends, no callback is ever started twice, and the callbacks of one task
      nest: one deferred while another was still waiting is started before it. */
  lemma DeferDiscipline(actions: seq<Action>)
    requires LegalRun(Init(), actions)
    ensures var s := Run(Init(), actions);
            && (forall id :: id in s.owner && s.owner[id] in s.ended ==> HasRun(s, id))
            && (forall i, j :: 0 <= i < j < |s.ran| ==> s.ran[i] != s.ran[j])
            && (forall i :: 0 <= i < |s.ran| ==> s.ran[i] in s.before && s.before[s.ran[i]] <= i)
            && Lifo(s)
  {
    InvRun(Init(), actions);
    EndedHaveRun(Run(Init(), actions));
  }

  lemma EndedHaveRun(s: State)
    requires Inv(s)
    ensures forall id :: id in s.owner && s.owner[id] in s.ended ==> HasRun(s, id)
  {
    forall id | id in s.owner && s.owner[id] in s.ended ensures HasRun(s, id) {
      var t := s.owner[id];
      assert t in s.ended && t !in s.stacks;
    }
  }

  /** What main defers is never run. */
  lemma MainDefersInVain(actions: seq<Action>, id: int)
    requires LegalRun(Init(), actions)
    requires var s := Run(Init(), actions); id in s.owner && s.owner[id] == MAIN
    ensures !HasRun(Run(Init(), actions), id)
  {
    InvRun(Init(), actions);
  }

  // ----- nothing is forgotten ----------------------------------------------------------

  /** The tasks that defer, one entry for each time. */
  function Deferrers(actions: seq<Action>): seq<int> {
    if actions == [] then []
    else (if actions[0].Defer? then [actions[0].task] else []) + Deferrers(actions[1..])
  }

  /** The tasks whose callbacks have been started, one entry for each. */
  ghost function Starters(s: State): seq<int>
    requires forall i {:trigger s.ran[i]} :: 0 <= i < |s.ran| ==> s.ran[i] in s.owner
  {
    seq(|s.ran|, i requires 0 <= i < |s.ran| => s.owner[s.ran[i]])
  }

  function Stack(s: State, t: int): seq<int> {
    if t in s.stacks then s.stacks[t] else []
  }

  function Waiting(s: State, t: int): nat {
    |Stack(s, t)|
  }

  /** `ds` have deferred so far: callback i is that of `ds[i]`, and what a task has deferred
      has been started or is waiting. */
  ghost predicate Remembered(s: State, ds: seq<int>) {
    && s.nextId == |ds|
    && (forall i {:trigger i in s.owner} :: i in s.owner <==> 0 <= i < |ds|)
    && (forall i {:trigger s.owner[i]} :: 0 <= i < |ds| ==> s.owner[i] == ds[i])
  }

  ghost predicate Balanced(s: State, ds: seq<int>, t: int)
    requires Starts(s)
  {
    multiset(Starters(s))[t] + Waiting(s, t) == multiset(ds)[t]
  }

  function Grown(ds: seq<int>, a: Action): seq<int> {
    if a.Defer? then ds + [a.task] else ds
  }

  lemma GrownFirst(ds: seq<int>, actions: seq<Action>)
    requires actions != []
    ensures Grown(ds, actions[0]) + Deferrers(actions[1..]) == ds + Deferrers(actions)
  {
  }

  lemma StartersAfter(s: State, a: Action)
    requires Stacks(s) && Starts(s) && Legal(s, a) && Starts(Next(s, a))
    ensures Starters(Next(s, a)) ==
            if a.Turn? && !Drained(s, a.task) then Starters(s) + [a.task] else Starters(s)
  {
    var n := Next(s, a);
    if a.Turn? && !Drained(s, a.task) {
      var m := |s.stacks[a.task]| - 1;
      assert s.owner[s.stacks[a.task][m]] == a.task;
      assert forall i {:trigger n.ran[i]} :: 0 <= i < |s.ran| ==> n.ran[i] == s.ran[i];
    }
  }

  lemma RememberedNext(s: State, ds: seq<int>, a: Action)
    requires Remembered(s, ds) && Legal(s, a)
    ensures Remembered(Next(s, a), Grown(ds, a))
  {
  }

  lemma BalancedNext(s: State, ds: seq<int>, a: Action, t: int)
    requires Stacks(s) && Starts(s) && Legal(s, a) && Starts(Next(s, a)) && Balanced(s, ds, t)
    ensures Balanced(Next(s, a), Grown(ds, a), t)
  {
    StartersAfter(s, a);
  }

  lemma {:induction false} RememberedRun(s: State, ds: seq<int>, actions: seq<Action>)
    requires Remembered(s, ds) && LegalRun(s, actions)
    ensures Remembered(Run(s, actions), ds + Deferrers(actions))
    decreases |actions|
  {
    if actions == [] {
      assert ds + [] == ds;
    } else {
      RememberedNext(s, ds, actions[0]);
      RememberedRun(Next(s, actions[0]), Grown(ds, actions[0]), actions[1..]);
      GrownFirst(ds, actions);
    }
  }

  ghost predicate InOrderAlong(s: State, actions: seq<Action>)
    requires LegalRun(s, actions)
    decreases |actions|
  {
    Stacks(s) && Starts(s) && (actions != [] ==> InOrderAlong(Next(s, actions[0]), actions[1..]))
  }

  lemma {:induction false} InvAlong(s: State, actions: seq<Action>)
    requires Inv(s) && LegalRun(s, actions)
    ensures InOrderAlong(s, actions)
    decreases |actions|
  {
    if actions != [] {
      InvNext(s, actions[0]);
      InvAlong(Next(s, actions[0]), actions[1..]);
    }
  }

  lemma {:induction false} BalancedRun(s: State, ds: seq<int>, actions: seq<Action>, t: int)
    requires LegalRun(s, actions) && InOrderAlong(s, actions) && Balanced(s, ds, t)
    ensures Starts(Run(s, actions)) && Balanced(Run(s, actions), ds + Deferrers(actions), t)
    decreases |actions|
  {
    if actions == [] {
      assert ds + [] == ds;
    } else {
      BalancedNext(s, ds, actions[0], t);
      BalancedRun(Next(s, actions[0]), Grown(ds, actions[0]), actions[1..], t);
      GrownFirst(ds, actions);
    }
  }

  /** In any interleaving, read off its actions alone: callback i belongs to the task that made
      the i-th call of `defer`; what a task has deferred has been started or is waiting on its
      stack; and a coroutine that has ended has started exactly as many callbacks as it made
      calls. */
  lemma NothingForgotten(actions: seq<Action>)
    requires LegalRun(Init(), actions)
    ensures var s, ds := Run(Init(), actions), Deferrers(actions);
            && (forall i :: i in s.owner <==> 0 <= i < |ds|)
            && (forall i :: 0 <= i < |ds| ==> s.owner[i] == ds[i])
            && (forall i :: 0 <= i < |s.ran| ==> s.ran[i] in s.owner)
            && (forall t :: multiset(Starters(s))[t] + Waiting(s, t) == multiset(ds)[t])
            && (forall t :: t in s.ended ==> multiset(Starters(s))[t] == multiset(ds)[t])
  {
    var s, ds := Run(Init(), actions), Deferrers(actions);
    assert [] + ds == ds;
    RememberedRun(Init(), [], actions);
    InvRun(Init(), actions);
    InvAlong(Init(), actions);
    forall t ensures multiset(Starters(s))[t] + Waiting(s, t) == multiset(ds)[t] {
      BalancedRun(Init(), [], actions, t);
    }
  }

  // ----- the loop that runs them -------------------------------------------------------

  /** What others, or the callbacks of `t`, may do while a callback of `t` is being called:
      anything but return from it, or turn the loop that waits for that. */
  predicate Foreign(acts: seq<Action>, t: int) {
    forall i :: 0 <= i < |acts| ==> acts[i] != Return(t) && acts[i] != Turn(t)
  }

  function Head(during: seq<seq<Action>>): seq<Action> {
    if during == [] then [] else during[0]
  }

  function Tail(during: seq<seq<Action>>): seq<seq<Action>> {
    if during == [] then [] else during[1..]
  }

  /** Where the loop stands when the callback at the top has returned. */
  ghost function Turned(s: State, t: int, acts: seq<Action>): State
    requires Pops(s, t) && LegalRun(Next(s, Turn(t)), acts) && Legal(Run(Next(s, Turn(t)), acts), Return(t))
  {
    Next(Run(Next(s, Turn(t)), acts), Return(t))
  }

  /** `during[k]` can happen while the k-th callback of the loop is being called. */
  ghost predicate DrainLegal(s: State, t: int, during: seq<seq<Action>>)
    decreases |during|, Waiting(s, t)
  {
    && Legal(s, Turn(t))
    && (Drained(s, t) ||
        (&& Foreign(Head(during), t) && LegalRun(Next(s, Turn(t)), Head(during))
         && Legal(Run(Next(s, Turn(t)), Head(during)), Return(t))
         && DrainLegal(Turned(s, t, Head(during)), t, Tail(during))))
  }

  ghost function Drain(s: State, t: int, during: seq<seq<Action>>): State
    requires DrainLegal(s, t, during)
    decreases |during|, Waiting(s, t)
  {
    if Drained(s, t) then Next(s, Turn(t)) else Drain(Turned(s, t, Head(during)), t, Tail(during))
  }

  /** All that happens from the start of the loop to its end. */
  ghost function Trace(s: State, t: int, during: seq<seq<Action>>): seq<Action>
    requires DrainLegal(s, t, during)
    decreases |during|, Waiting(s, t)
  {
    if Drained(s, t) then [Turn(t)]
    else [Turn(t)] + (Head(during) + ([Return(t)] + Trace(Turned(s, t, Head(during)), t, Tail(during))))
  }

  lemma {:induction false} RunAppend(s: State, a: seq<Action>, b: seq<Action>)
    requires LegalRun(s, a) && LegalRun(Run(s, a), b)
    ensures LegalRun(s, a + b) && Run(s, a + b) == Run(Run(s, a), b)
    decreases |a|
  {
    if a == [] {
      assert a + b == b;
    } else {
      assert (a + b)[0] == a[0] && (a + b)[1..] == a[1..] + b;
      RunAppend(Next(s, a[0]), a[1..], b);
    }
  }

  lemma RunPrepend(s: State, a: Action, b: seq<Action>)
    requires Legal(s, a) && LegalRun(Next(s, a), b)
    ensures LegalRun(s, [a] + b) && Run(s, [a] + b) == Run(Next(s, a), b)
  {
    assert ([a] + b)[0] == a && ([a] + b)[1..] == b;
  }

  /** The loop is one of the interleavings, and at its end the coroutine has ended. */
  lemma {:induction false} TraceIsRun(s: State, t: int, during: seq<seq<Action>>)
    requires DrainLegal(s, t, during)
    ensures LegalRun(s, Trace(s, t, during)) && Run(s, Trace(s, t, during)) == Drain(s, t, during)
    ensures t in Drain(s, t, during).ended && t !in Drain(s, t, during).stacks
    decreases |during|, Waiting(s, t)
  {
    if Drained(s, t) {
      RunPrepend(s, Turn(t), []);
      assert [Turn(t)] + [] == [Turn(t)];
    } else {
      var n := Next(s, Turn(t));
      var m := Run(n, Head(during));
      var rest := Trace(Turned(s, t, Head(during)), t, Tail(during));
      TraceIsRun(Turned(s, t, Head(during)), t, Tail(during));
      RunPrepend(m, Return(t), rest);
      RunAppend(n, Head(during), [Return(t)] + rest);
      RunPrepend(s, Turn(t), Head(during) + ([Return(t)] + rest));
    }
  }

  lemma {:induction false} ForeignKeepsTask(s: State, t: int, acts: seq<Action>)
    requires LegalRun(s, acts) && Foreign(acts, t) && Stands(s, t, InCode) && t in s.stacks
    ensures Stands(Run(s, acts), t, InCode) && t in Run(s, acts).stacks
    decreases |acts|
  {
    if acts != [] {
      assert acts[0] != Return(t) && acts[0] != Turn(t);
      ForeignKeepsTask(Next(s, acts[0]), t, acts[1..]);
    }
  }

  // ----- a coroutine by itself ---------------------------------------------------------

  function Times(n: nat, a: Action): seq<Action> {
    seq(n, _ => a)
  }

  function Upward(first: int, n: nat): seq<int> {
    seq(n, i requires 0 <= i < n => first + i)
  }

  function Downward(first: int, n: nat): seq<int> {
    seq(n, i requires 0 <= i < n => first + n - 1 - i)
  }

  lemma UpwardFirst(stack: seq<int>, first: int, n: nat)
    requires n > 0
    ensures (stack + [first]) + Upward(first + 1, n - 1) == stack + Upward(first, n)
  {
    assert Upward(first, n) == [first] + Upward(first + 1, n - 1);
  }

  lemma {:induction false} DefersInTurn(s: State, t: int, n: nat)
    requires Stands(s, t, InCode)
    ensures LegalRun(s, Times(n, Defer(t)))
    ensures var u := Run(s, Times(n, Defer(t)));
            u.phases == s.phases && u.ran == s.ran && Stack(u, t) == Stack(s, t) + Upward(s.nextId, n)
    decreases n
  {
    if n == 0 {
      assert Stack(s, t) + Upward(s.nextId, 0) == Stack(s, t);
    } else {
      assert Times(n, Defer(t))[0] == Defer(t) && Times(n, Defer(t))[1..] == Times(n - 1, Defer(t));
      DefersInTurn(Next(s, Defer(t)), t, n - 1);
      UpwardFirst(Stack(s, t), s.nextId, n);
    }
  }

  /** The loop of a coroutine whose callbacks do nothing. */
  function Unwinding(t: int, n: nat): seq<Action> {
    if n == 0 then [Turn(t)] else [Turn(t)] + ([Return(t)] + Unwinding(t, n - 1))
  }

  lemma DownwardFirst(ran: seq<int>, first: int, n: nat)
    requires n > 0
    ensures (ran + [first + n - 1]) + Downward(first, n - 1) == ran + Downward(first, n)
  {
    assert [first + n - 1] + Downward(first, n - 1) == Downward(first, n);
  }

  lemma UnwindsOne(s: State, t: int, first: int, n: nat) returns (v: State, w: State)
    requires Stands(s, t, AtLoop) && Stack(s, t) == Upward(first, n) && n > 0
    ensures Legal(s, Turn(t)) && v == Next(s, Turn(t)) && v.ran == s.ran + [first + n - 1]
    ensures Legal(v, Return(t)) && w == Next(v, Return(t)) && w.ran == v.ran
    ensures Stands(w, t, AtLoop) && Stack(w, t) == Upward(first, n - 1)
  {
    v := Next(s, Turn(t));
    w := Next(v, Return(t));
  }

  lemma {:induction false} Unwinds(s: State, t: int, first: int, n: nat)
    requires Stands(s, t, AtLoop) && Stack(s, t) == Upward(first, n)
    ensures LegalRun(s, Unwinding(t, n))
    ensures var u := Run(s, Unwinding(t, n)); u.ran == s.ran + Downward(first, n) && t in u.ended
    decreases n
  {
    if n == 0 {
      RunPrepend(s, Turn(t), []);
      assert [Turn(t)] + [] == [Turn(t)] && s.ran + Downward(first, 0) == s.ran;
    } else {
      var v, w := UnwindsOne(s, t, first, n);
      Unwinds(w, t, first, n - 1);
      RunPrepend(v, Return(t), Unwinding(t, n - 1));
      RunPrepend(s, Turn(t), [Return(t)] + Unwinding(t, n - 1));
      DownwardFirst(s.ran, first, n);
    }
  }

  /** Wherever the others stand, a new coroutine can begin, defer `n` callbacks, return, and
      end; it starts exactly these callbacks, the last deferred first. */
  lemma RunsInReverse(s: State, t: int, n: nat)
    requires t != MAIN && t !in s.phases && t !in s.ended && t !in s.stacks
    ensures var actions := [Begin(t)] + (Times(n, Defer(t)) + ([Return(t)] + Unwinding(t, n)));
            && LegalRun(s, actions)
            && Run(s, actions).ran == s.ran + Downward(s.nextId, n) && t in Run(s, actions).ended
  {
    var s1 := Next(s, Begin(t));
    DefersInTurn(s1, t, n);
    var s2 := Run(s1, Times(n, Defer(t)));
    assert [] + Upward(s.nextId, n) == Upward(s.nextId, n);
    Unwinds(Next(s2, Return(t)), t, s.nextId, n);
    RunPrepend(s2, Return(t), Unwinding(t, n));
    RunAppend(s1, Times(n, Defer(t)), [Return(t)] + Unwinding(t, n));
    RunPrepend(s, Begin(t), Times(n, Defer(t)) + ([Return(t)] + Unwinding(t, n)));
  }
}

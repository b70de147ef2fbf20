/** The spin lock: mutual exclusion over all interleavings of its atomic steps, and the
    arithmetic of one round of exponential backoff in 32-bit unsigned integers. */
module SpinLock {

  // ----- one round of backoff ----------------------------------------------------------

  const UINT: nat := 0x1_0000_0000

  function Pow2(k: nat): (p: nat)
    ensures p >= 1
  {
    if k == 0 then 1 else 2 * Pow2(k - 1)
  }

  /** The smallest k with spin <= 2^k. */
  ghost predicate IsCeilLog(k: nat, spin: nat) {
    spin <= Pow2(k) && (k > 0 ==> Pow2(k - 1) < spin)
  }

  lemma {:induction false} Pow2Grows(j: nat, k: nat)
    requires j <= k
    ensures Pow2(j) <= Pow2(k)
    ensures j < k ==> 2 * Pow2(j) <= Pow2(k)
    decreases k
  {
    if j < k {
      Pow2Grows(j, k - 1);
    }
  }

  lemma Pow31()
    ensures Pow2(31) == 0x8000_0000
  {
    assert Pow2(10) == 1024;
    assert Pow2(20) == 0x10_0000;
  }

  lemma PowTop(j: nat)
    requires 0 < j < 32
    ensures Pow2(j) == 2 * Pow2(j - 1) <= 0x8000_0000
  {
    Pow2Grows(j, 31);
    Pow31();
  }

  /** n <<= 1 in uint_t */
  function Shifted(n: nat): nat {
    (2 * n) % UINT
  }

  /** The loop variable after j shifts. */
  function Spins(j: nat): nat {
    if j == 0 then 1 else Shifted(Spins(j - 1))
  }

  lemma {:induction false} SpinsIs(j: nat)
    ensures Spins(j) == if j < 32 then Pow2(j) else 0
  {
    if j > 0 {
      SpinsIs(j - 1);
      if j < 32 {
        PowTop(j);
      } else if j == 32 {
        Pow31();
      }
    }
  }

  /** The backoff loop ends exactly when spin is at most 2^31; beyond that the shifted
      variable runs over to 0 and stays below spin for ever. */
  lemma BackoffEnds(spin: nat)
    ensures (exists j: nat :: Spins(j) >= spin) <==> spin <= 0x8000_0000
  {
    SpinsIs(31);
    Pow31();
    if spin > 0x8000_0000 {
      forall j: nat ensures Spins(j) < spin {
        SpinsIs(j);
        if j < 32 {
          Pow2Grows(j, 31);
        }
      }
    }
  }

  /** The pauses made before attempt number j: 2^j - 1, until the loop variable has run over. */
  function PausesBefore(j: nat): nat {
    Pow2(if j < 32 then j else 32) - 1
  }

  lemma PausesAdd(j: nat)
    ensures PausesBefore(j + 1) == PausesBefore(j) + Spins(j)
  {
    SpinsIs(j);
  }

  /** One round of spinlock() between two sched_yield calls; `wins(a)` says whether attempt
      number a, counted from 0, would take the lock.  The round stops at the first attempt
      that does.  A round without success makes 1 + ceil(log2 spin) attempts and pauses at
      least spin - 1 and fewer than 2 spin times.  It ends for every `spin`, but beyond 2^31
      only because some attempt succeeds. */
  method Round(spin: nat, wins: nat -> bool) returns (acquired: bool, attempts: nat, pauses: nat)
    requires spin < UINT
    requires spin <= 0x8000_0000 || exists a: nat :: wins(a)
    ensures attempts >= 1 && pauses == PausesBefore(attempts - 1)
    ensures forall a: nat :: a < attempts - 1 ==> !wins(a)
    ensures acquired <==> wins(attempts - 1)
    ensures !acquired && spin >= 1 ==> IsCeilLog(attempts - 1, spin) && spin - 1 <= pauses < 2 * spin
  {
    attempts, pauses := 1, 0;
    if wins(0) {
      return true, attempts, pauses;
    }
    var n := 1;
    ghost var last := 31;
    if spin > 0x8000_0000 {
      last :| last >= 0 && wins(last);
    }
    while n < spin
      invariant attempts >= 1 && n == Spins(attempts - 1) && pauses == PausesBefore(attempts - 1)
      invariant attempts > 1 ==> Spins(attempts - 2) < spin
      invariant forall a: nat :: a < attempts ==> !wins(a)
      invariant attempts <= last + 1
      decreases last + 1 - attempts
    {
      var i := 0;
      while i < n
        invariant i <= n && pauses == PausesBefore(attempts - 1) + i
      {
        pauses := pauses + 1;
        i := i + 1;
      }
      PausesAdd(attempts - 1);
      if spin <= 0x8000_0000 { StillShort(attempts - 1, spin); }
      attempts := attempts + 1;
      if wins(attempts - 1) {
        return true, attempts, pauses;
      }
      n := Shifted(n);
    }
    acquired := false;
    RoundFailed(attempts, spin);
  }

  lemma StillShort(j: nat, spin: nat)
    requires Spins(j) < spin <= 0x8000_0000 && j <= 31
    ensures j < 31
  {
    SpinsIs(j);
    Pow31();
  }

  /** The loop variable has reached `spin` for the first time. */
  lemma RoundFailed(attempts: nat, spin: nat)
    requires attempts >= 1 && spin < UINT && spin <= Spins(attempts - 1)
    requires attempts > 1 ==> Spins(attempts - 2) < spin
    ensures spin >= 1 ==> IsCeilLog(attempts - 1, spin) && spin - 1 <= PausesBefore(attempts - 1) < 2 * spin
  {
    SpinsIs(attempts - 1);
    if attempts > 1 { SpinsIs(attempts - 2); }
  }

  // ----- mutual exclusion --------------------------------------------------------------

  /** Where a process is: not in spinlock(), about to read the word, having read 0 and about
      to compare-and-set, or behind a successful spinlock(). */
  datatype Place = Away | Reading | Setting | Holding

  datatype Lock = Lock(word: int, places: seq<Place>)

  datatype Step = Call(p: int) | Read(p: int) | CompareAndSet(p: int) | Unlock(p: int)

  predicate Enabled(l: Lock, s: Step) {
    0 <= s.p < |l.places| &&
    match s
    case Call(p) => l.places[p] == Away
    case Read(p) => l.places[p] == Reading
    case CompareAndSet(p) => l.places[p] == Setting
    case Unlock(p) => l.places[p] == Holding
  }

  /** `values[p]` is what process p stores in the word.  A failed read or set goes round to
      the next read. */
  function Next(l: Lock, s: Step, values: seq<int>): Lock
    requires Enabled(l, s) && |values| == |l.places|
  {
    match s
    case Call(p) => l.(places := l.places[p := Reading])
    case Read(p) => l.(places := l.places[p := if l.word == 0 then Setting else Reading])
    case CompareAndSet(p) =>
      if l.word == 0 then Lock(values[p], l.places[p := Holding])
      else l.(places := l.places[p := Reading])
    case Unlock(p) => Lock(0, l.places[p := Away])
  }

  ghost predicate EnabledRun(l: Lock, steps: seq<Step>, values: seq<int>)
    requires |values| == |l.places|
    decreases |steps|
  {
    steps == [] || (Enabled(l, steps[0]) && EnabledRun(Next(l, steps[0], values), steps[1..], values))
  }

  ghost function Run(l: Lock, steps: seq<Step>, values: seq<int>): (m: Lock)
    requires |values| == |l.places| && EnabledRun(l, steps, values)
    ensures |m.places| == |l.places|
    decreases |steps|
  {
    if steps == [] then l else Run(Next(l, steps[0], values), steps[1..], values)
  }

  function Free(n: nat): Lock {
    Lock(0, seq(n, _ => Away))
  }

  ghost predicate Exclusive(l: Lock) {
    forall p, q :: 0 <= p < q < |l.places| ==> !(l.places[p] == Holding && l.places[q] == Holding)
  }

  /** The word is 0 exactly when nobody holds the lock. */
  ghost predicate Inv(l: Lock) {
    Exclusive(l) && (l.word == 0 <==> Holding !in l.places)
  }

  lemma {:induction false} InvRun(l: Lock, steps: seq<Step>, values: seq<int>)
    requires |values| == |l.places| && (forall v :: v in values ==> v != 0)
    requires Inv(l) && EnabledRun(l, steps, values)
    ensures Inv(Run(l, steps, values))
    decreases |steps|
  {
    if steps != [] {
      var s := steps[0];
      var m := Next(l, s, values);
      assert l.places[s.p] in l.places;
      assert m.places[s.p] in m.places;
      assert values[s.p] in values;
      forall q | 0 <= q < |m.places| && q != s.p ensures m.places[q] == l.places[q] {
      }
      if Holding in m.places {
        var q :| 0 <= q < |m.places| && m.places[q] == Holding;
        assert q != s.p ==> l.places[q] in l.places;
      }
      InvRun(m, steps[1..], values);
    }
  }

  /** At most one process holds the lock in every interleaving exactly when no process stores
      0 (a single process aside). */
  lemma MutualExclusion(values: seq<int>)
    requires |values| >= 2
    ensures (forall steps :: EnabledRun(Free(|values|), steps, values) ==>
               Exclusive(Run(Free(|values|), steps, values))) <==> 0 !in values
  {
    var start := Free(|values|);
    if 0 !in values {
      forall steps | EnabledRun(start, steps, values) ensures Exclusive(Run(start, steps, values)) {
        InvRun(start, steps, values);
      }
    } else {
      var a :| 0 <= a < |values| && values[a] == 0;
      var b := if a == 0 then 1 else 0;
      var steps := BothHold(values, a, b);
    }
  }

  lemma RunCons(l: Lock, s: Step, m: Lock, steps: seq<Step>, values: seq<int>)
    requires |values| == |l.places| && Enabled(l, s) && m == Next(l, s, values) && EnabledRun(m, steps, values)
    ensures EnabledRun(l, [s] + steps, values) && Run(l, [s] + steps, values) == Run(m, steps, values)
  {
    assert ([s] + steps)[0] == s && ([s] + steps)[1..] == steps;
  }

  /** A process that finds the word 0 takes the lock, and the run goes on from there. */
  lemma Takes(l: Lock, p: nat, later: seq<Step>, values: seq<int>) returns (steps: seq<Step>)
    requires |values| == |l.places| && p < |values| && l.places[p] == Away && l.word == 0
    requires EnabledRun(Lock(values[p], l.places[p := Holding]), later, values)
    ensures EnabledRun(l, steps, values)
    ensures Run(l, steps, values) == Run(Lock(values[p], l.places[p := Holding]), later, values)
  {
    var l1 := Next(l, Call(p), values);
    var l2 := Next(l1, Read(p), values);
    var l3 := Next(l2, CompareAndSet(p), values);
    assert l3.places == l.places[p := Holding];
    RunCons(l2, CompareAndSet(p), l3, later, values);
    RunCons(l1, Read(p), l2, [CompareAndSet(p)] + later, values);
    RunCons(l, Call(p), l1, [Read(p)] + ([CompareAndSet(p)] + later), values);
    steps := [Call(p)] + ([Read(p)] + ([CompareAndSet(p)] + later));
  }

  lemma BothHold(values: seq<int>, a: nat, b: nat) returns (steps: seq<Step>)
    requires a < |values| && b < |values| && a != b && values[a] == 0
    ensures EnabledRun(Free(|values|), steps, values) && !Exclusive(Run(Free(|values|), steps, values))
  {
    var l := Free(|values|);
    var m := Lock(values[a], l.places[a := Holding]);
    var n := Lock(values[b], m.places[b := Holding]);
    var later := Takes(m, b, [], values);
    steps := Takes(l, a, later, values);
    assert n.places[a] == Holding && n.places[b] == Holding;
  }

  function StepsTo(p: Place): nat {
    match p case Away => 3 case Reading => 2 case Setting => 1 case Holding => 0
  }

  /** A process that finds the word 0, wherever it stands in spinlock(), takes the lock. */
  lemma {:induction false} TakesFree(l: Lock, p: nat, values: seq<int>) returns (steps: seq<Step>)
    requires |values| == |l.places| && p < |values| && l.places[p] != Holding && l.word == 0
    ensures EnabledRun(l, steps, values) && Run(l, steps, values).places[p] == Holding
    ensures forall s :: s in steps ==> s.p == p && !s.Unlock?
    decreases StepsTo(l.places[p])
  {
    var s := match l.places[p] case Away => Call(p) case Reading => Read(p) case _ => CompareAndSet(p);
    var m := Next(l, s, values);
    var later: seq<Step> := [];
    if l.places[p] != Setting {
      later := TakesFree(m, p, values);
    }
    RunCons(l, s, m, later, values);
    steps := [s] + later;
  }

  /** Whoever wants the lock can get it: in every interleaving of processes that store no 0, a
      process that does not hold the lock can come to hold it by itself, once the holder, if
      there is one, unlocks it. */
  lemma CanBeTaken(values: seq<int>, steps: seq<Step>, p: nat) returns (more: seq<Step>)
    requires p < |values| && 0 !in values && EnabledRun(Free(|values|), steps, values)
    requires Run(Free(|values|), steps, values).places[p] != Holding
    ensures var l := Run(Free(|values|), steps, values);
            && EnabledRun(l, more, values) && Run(l, more, values).places[p] == Holding
            && (forall s :: s in more ==> if s.Unlock? then l.word != 0 else s.p == p)
  {
    InvRun(Free(|values|), steps, values);
    var l := Run(Free(|values|), steps, values);
    if l.word == 0 {
      more := TakesFree(l, p, values);
    } else {
      var q :| 0 <= q < |l.places| && l.places[q] == Holding;
      var later := TakesFree(Next(l, Unlock(q), values), p, values);
      RunCons(l, Unlock(q), Next(l, Unlock(q), values), later, values);
      more := [Unlock(q)] + later;
    }
  }
}

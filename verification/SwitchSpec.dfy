/** The coroutine switcher seen from outside: a stack of active coroutines.

    `active` lists the coroutines that are running or waiting for a callee they
    resumed, innermost last; whoever is at the end of it has the processor, and main
    has it when the list is empty.  This is the reference machine that the pointer
    machine of module Coroutines (`current`, `origin`, saved contexts, saved
    executor registers) is proved to implement. */
module SwitchSpec {

  const PAGE_SIZE: int := 8192

  /** The five executor globals that are exchanged on every switch.  Addresses are
      offsets in the page named by `page`. */
  datatype Registers = Registers(top: int, end: int, page: int, pageSize: int, frame: int)

  datatype State = State(
    active: seq<int>,              // cids, innermost last
    saved: seq<Registers>,       // saved[i]: registers of the resumer of active[i] when it resumed it
    parked: map<int, Registers>,   // suspended coroutines and their registers
    regs: Registers,               // registers of whoever has the processor
    lastCid: int,
    pages: map<int, int>,          // the VM page each coroutine ever created was given
    nextPage: int,
    freed: seq<int>)               // pages given back, in order

  datatype Op =
    | Compute(regs: Registers)         // PHP code runs and moves the registers
    | Create(top: int, frame: int)     // a new coroutine, and the frame its body starts in
    | Resume(cid: int)
    | Yield
    | End

  ghost predicate Init(s: State) {
    s.active == [] && s.saved == [] && s.parked == map[] && s.lastCid == 0 && s.pages == map[] && s.freed == []
  }

  function Top(s: State): int
    requires s.active != []
  {
    s.active[|s.active| - 1]
  }

  predicate Live(s: State, cid: int) {
    cid in s.active || cid in s.parked
  }

  /** What the caller of an operation owes: only suspended coroutines are resumed, only
      coroutines yield, and PHP code that ends has unwound to the page it was started on. */
  predicate Legal(s: State, op: Op) {
    match op
    case Compute(_) => true
    case Create(_, _) => true
    case Resume(cid) => cid in s.parked
    case Yield => s.active != [] && s.saved != []
    case End => s.active != [] && s.saved != [] && Top(s) in s.pages && s.regs.page == s.pages[Top(s)]
  }

  function Pop(s: State): State
    requires s.active != [] && s.saved != []
  {
    s.(active := s.active[..|s.active| - 1],
       saved := s.saved[..|s.saved| - 1],
       regs := s.saved[|s.saved| - 1])
  }

  function Push(s: State, cid: int, regs: Registers): State {
    s.(active := s.active + [cid], saved := s.saved + [s.regs], regs := regs)
  }

  function Step(s: State, op: Op): State
    requires Legal(s, op)
  {
    match op
    case Compute(regs) => s.(regs := regs)
    case Create(top, frame) =>
      Push(s.(lastCid := s.lastCid + 1,
              pages := s.pages[s.lastCid + 1 := s.nextPage],
              nextPage := s.nextPage + 1),
           s.lastCid + 1, Registers(top, PAGE_SIZE, s.nextPage, PAGE_SIZE, frame))
    case Resume(cid) => Push(s.(parked := s.parked - {cid}), cid, s.parked[cid])
    case Yield => Pop(s.(parked := s.parked[Top(s) := s.regs]))
    case End => Pop(s.(freed := s.freed + [s.regs.page]))
  }

  ghost predicate LegalRun(s: State, ops: seq<Op>)
    decreases |ops|
  {
    ops == [] || (Legal(s, ops[0]) && LegalRun(Step(s, ops[0]), ops[1..]))
  }

  ghost function Run(s: State, ops: seq<Op>): State
    requires LegalRun(s, ops)
    decreases |ops|
  {
    if ops == [] then s else Run(Step(s, ops[0]), ops[1..])
  }

  predicate Distinct(xs: seq<int>) {
    forall i, j :: 0 <= i < j < |xs| ==> xs[i] != xs[j]
  }

  ghost predicate StackWf(s: State) {
    && |s.saved| == |s.active|
    && Distinct(s.active)
    && (forall c :: c in s.active ==> c !in s.parked)
    && (forall c :: Live(s, c) ==> c in s.pages)
    && (forall c :: c in s.pages <==> 1 <= c <= s.lastCid)
    && 0 <= s.lastCid
  }

  ghost predicate PagesWf(s: State) {
    && (forall c :: c in s.pages ==> s.pages[c] < s.nextPage)
    && (forall c, d :: c in s.pages && d in s.pages && c != d ==> s.pages[c] != s.pages[d])
    && Distinct(s.freed)
    && (forall c :: c in s.pages ==> (s.pages[c] in s.freed <==> !Live(s, c)))
    && (forall p :: p in s.freed ==> OwnedOnce(s, p))
  }

  ghost predicate OwnedOnce(s: State, page: int) {
    exists c :: c in s.pages && s.pages[c] == page
  }

  /** The books of every reachable state: nobody is both active and parked, cids are
      1..lastCid and never given twice, every coroutine has its own page, and the pages
      given back are exactly those of the coroutines that have ended, each once. */
  ghost predicate Wf(s: State) {
    StackWf(s) && PagesWf(s)
  }

  ghost predicate LiveAfter(s: State, op: Op, t: State)
    requires Legal(s, op)
  {
    forall c :: Live(t, c) <==>
      if op.Create? && c == s.lastCid + 1 then true else Live(s, c) && !(op.End? && c == Top(s))
  }

  lemma LivePush(s: State, op: Op)
    requires StackWf(s) && Legal(s, op) && (op.Create? || op.Resume?)
    ensures StackWf(Step(s, op)) && LiveAfter(s, op, Step(s, op))
  {
    if op.Create? { assert !Live(s, s.lastCid + 1); }
    var t := Step(s, op);
    assert t.active == s.active + [Top(t)];
  }

  lemma LivePop(s: State, op: Op)
    requires StackWf(s) && Legal(s, op) && (op.Yield? || op.End?)
    ensures StackWf(Step(s, op)) && LiveAfter(s, op, Step(s, op))
  {
    assert s.active == Step(s, op).active + [Top(s)];
  }

  /** Who is alive after an operation: a creation adds the new cid, an end removes the
      one that ended, nothing else changes it. */
  lemma LiveStep(s: State, op: Op)
    requires StackWf(s) && Legal(s, op)
    ensures StackWf(Step(s, op))
    ensures forall c :: Live(Step(s, op), c) <==>
              if op.Create? && c == s.lastCid + 1 then true
              else Live(s, c) && !(op.End? && c == Top(s))
  {
    match op {
      case Compute(regs) => assert forall c :: Live(s.(regs := regs), c) <==> Live(s, c);
      case Create(_, _) => LivePush(s, op);
      case Resume(_) => LivePush(s, op);
      case Yield => LivePop(s, op);
      case End => LivePop(s, op);
    }
  }

  // ----- what an operation does to control ---------------------------------------------

  /** What no switch touches. */
  predicate SameBooks(s: State, t: State) {
    t.lastCid == s.lastCid && t.pages == s.pages && t.nextPage == s.nextPage && t.freed == s.freed
  }

  /** `c` goes on where it was suspended, on top of those that were active. */
  predicate TakesOver(s: State, t: State, c: int) {
    && c in s.parked && t.active == s.active + [c] && t.saved == s.saved + [s.regs]
    && t.regs == s.parked[c] && t.parked == s.parked - {c} && SameBooks(s, t)
  }

  /** `c`, on top, is suspended, and the one below goes on with the registers of the moment
      at which it resumed or created `c`. */
  predicate GivesWay(s: State, t: State, c: int) {
    && s.active == t.active + [c] && s.saved == t.saved + [t.regs]
    && t.parked == s.parked[c := s.regs] && SameBooks(s, t)
  }

  /** A coroutine with a new cid and a page of its own runs on top. */
  predicate Begins(s: State, t: State, top: int, frame: int) {
    var c := s.lastCid + 1;
    && t.lastCid == c && t.active == s.active + [c] && t.saved == s.saved + [s.regs] && t.parked == s.parked
    && t.regs.top == top && t.regs.frame == frame && t.regs.end == PAGE_SIZE && t.regs.pageSize == PAGE_SIZE
    && t.pages == s.pages[c := t.regs.page] && (forall d :: d in s.pages ==> s.pages[d] != t.regs.page)
    && t.freed == s.freed
  }

  /** `c`, on top, is gone, its page is given back, and the one below goes on. */
  predicate Leaves(s: State, t: State, c: int) {
    && s.active == t.active + [c] && s.saved == t.saved + [t.regs] && t.parked == s.parked
    && c in s.pages && t.freed == s.freed + [s.pages[c]]
    && t.lastCid == s.lastCid && t.pages == s.pages && t.nextPage == s.nextPage
  }

  lemma OpDoes(s: State, op: Op)
    requires Wf(s) && Legal(s, op)
    ensures var t := Step(s, op);
            match op
            case Compute(regs) => t.regs == regs && t == s.(regs := t.regs)
            case Create(top, frame) => Begins(s, t, top, frame)
            case Resume(c) => TakesOver(s, t, c)
            case Yield => GivesWay(s, t, Top(s))
            case End => Leaves(s, t, Top(s))
  {
    var t := Step(s, op);
    if op.Yield? || op.End? {
      assert s.active == t.active + [Top(s)];
    }
  }

  lemma WfStep(s: State, op: Op)
    requires Wf(s) && Legal(s, op)
    ensures Wf(Step(s, op))
  {
    LiveStep(s, op);
    var t := Step(s, op);
    if op.Create? || op.End? {
      forall p | p in t.freed ensures OwnedOnce(t, p) {
        if p in s.freed {
          var c :| c in s.pages && s.pages[c] == p;
          assert c in t.pages && t.pages[c] == p;
        } else {
          assert Live(s, Top(s)) && t.pages[Top(s)] == p;
        }
      }
      if op.Create? {
        forall p | p in s.freed ensures p < s.nextPage {
          assert OwnedOnce(s, p);
        }
      } else {
        assert Live(s, Top(s));
      }
    } else {
      forall p | p in t.freed ensures OwnedOnce(t, p) {
        assert OwnedOnce(s, p);
      }
    }
  }

  lemma {:induction false} WfRun(s: State, ops: seq<Op>)
    requires Wf(s) && LegalRun(s, ops)
    ensures Wf(Run(s, ops))
    decreases |ops|
  {
    if ops != [] {
      WfStep(s, ops[0]);
      WfRun(Step(s, ops[0]), ops[1..]);
    }
  }

  /** In every run from the start, each coroutine that has ended gave back exactly the
      page it was given, once; no page of an active or suspended coroutine was given back;
      cids are handed out in increasing order and a cid is never live again after its end. */
  lemma PagesAndCids(s: State, ops: seq<Op>)
    requires Init(s) && LegalRun(s, ops)
    ensures var t := Run(s, ops);
            && Distinct(t.freed)
            && (forall c :: 1 <= c <= t.lastCid ==> c in t.pages && (t.pages[c] in t.freed <==> !Live(t, c)))
            && (forall p :: p in t.freed ==> exists c :: c in t.pages && !Live(t, c) && t.pages[c] == p)
            && (forall c :: Live(t, c) ==> 1 <= c <= t.lastCid)
  {
    WfRun(s, ops);
    var t := Run(s, ops);
    forall p | p in t.freed ensures exists c :: c in t.pages && !Live(t, c) && t.pages[c] == p {
      assert OwnedOnce(t, p);
    }
  }

  /** A coroutine that has ended stays ended, whatever runs afterwards. */
  lemma {:induction false} EndedForGood(s: State, ops: seq<Op>, cid: int)
    requires Wf(s) && LegalRun(s, ops) && 1 <= cid <= s.lastCid && !Live(s, cid)
    ensures !Live(Run(s, ops), cid) && s.lastCid <= Run(s, ops).lastCid
    decreases |ops|
  {
    if ops != [] {
      WfStep(s, ops[0]);
      var t := Step(s, ops[0]);
      assert !Live(t, cid);
      EndedForGood(t, ops[1..], cid);
    }
  }

  /** Control, once it is more than `depth` levels deep, first comes back to that depth
      with the last of `ops`. */
  ghost predicate FirstBackAt(s: State, ops: seq<Op>, depth: nat)
    requires LegalRun(s, ops)
    decreases |ops|
  {
    ops != [] &&
    var t := Step(s, ops[0]);
    if |t.active| == depth then |ops| == 1 else FirstBackAt(t, ops[1..], depth)
  }

  lemma {:induction false} BackToBase(s: State, ops: seq<Op>, base: seq<int>, regs: Registers)
    requires Wf(s) && LegalRun(s, ops)
    requires |s.active| > |base| && s.active[..|base|] == base && s.saved[|base|] == regs
    requires FirstBackAt(s, ops, |base|)
    ensures Run(s, ops).active == base && Run(s, ops).regs == regs
    decreases |ops|
  {
    var t := Step(s, ops[0]);
    WfStep(s, ops[0]);
    if |t.active| == |base| {
      assert ops[1..] == [];
      assert t.active == base;
    } else {
      assert t.active[..|base|] == base;
      BackToBase(t, ops[1..], base, regs);
    }
  }

  /** Whatever a resumed or newly created coroutine does, and however deeply it resumes
      others, when control comes back to the one who resumed or created it the same
      coroutines are active below and the registers are those of the moment of the call. */
  lemma CallReturns(s: State, op: Op, ops: seq<Op>)
    requires Wf(s) && (op.Create? || op.Resume?) && Legal(s, op) && LegalRun(Step(s, op), ops)
    requires FirstBackAt(Step(s, op), ops, |s.active|)
    ensures var t := Run(Step(s, op), ops); t.active == s.active && t.regs == s.regs
  {
    WfStep(s, op);
    BackToBase(Step(s, op), ops, s.active, s.regs);
  }

  lemma {:induction false} StaysParked(s: State, ops: seq<Op>, cid: int)
    requires Wf(s) && LegalRun(s, ops) && cid in s.parked && Resume(cid) !in ops
    ensures Wf(Run(s, ops)) && cid in Run(s, ops).parked && Run(s, ops).parked[cid] == s.parked[cid]
    decreases |ops|
  {
    if ops != [] {
      WfStep(s, ops[0]);
      var t := Step(s, ops[0]);
      assert Resume(cid) !in ops[1..];
      assert cid in t.parked && t.parked[cid] == s.parked[cid] by {
        assert cid !in s.active;
      }
      StaysParked(t, ops[1..], cid);
    }
  }

  /** A coroutine that yields finds, when it is next resumed, the registers it had when
      it yielded, whoever resumes it and however deep. */
  lemma YieldReturns(s: State, ops: seq<Op>)
    requires Wf(s) && Legal(s, Yield) && LegalRun(Step(s, Yield), ops) && Resume(Top(s)) !in ops
    ensures var t := Run(Step(s, Yield), ops);
            && Legal(t, Resume(Top(s)))
            && Step(t, Resume(Top(s))).regs == s.regs
            && Top(Step(t, Resume(Top(s)))) == Top(s)
            && Step(t, Resume(Top(s))).active == t.active + [Top(s)]
  {
    WfStep(s, Yield);
    StaysParked(Step(s, Yield), ops, Top(s));
  }
}

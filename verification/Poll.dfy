/** The epoll registrations and the dispatch of a batch of reported events, over the one
    `events` array that `wait_event` also uses as scratch space. */
module Poll {

  /** The 32 bits of a C `int`. */
  type Int32 = x: bv64 | x >> 32 == 0

  const NCAP: nat := 16

  predicate Negative(x: Int32) {
    x & 0x8000_0000 != 0
  }

  /** Conversion of `int` to uint64_t extends the sign. */
  function Widen(x: Int32): bv64 {
    if Negative(x) then 0xffff_ffff_0000_0000 | x else x
  }

  function ToUint64(fd: Int32, id: Int32): bv64 {
    (Widen(fd) << 32) | Widen(id)
  }

  function FdOf(v: bv64): Int32 {
    v >> 32
  }

  function IdOf(v: bv64): Int32 {
    v & 0xffff_ffff
  }

  lemma LowerHalf(w: bv64, x: bv64)
    ensures ((w << 32) | x) & 0xffff_ffff == x & 0xffff_ffff
  {
  }

  lemma UpperHalf(w: bv64, x: bv64)
    ensures ((w << 32) | x) >> 32 == (w & 0xffff_ffff) | (x >> 32)
  {
  }

  lemma WidenNegative(x: Int32)
    requires Negative(x)
    ensures Widen(x) & 0xffff_ffff == x && Widen(x) >> 32 == 0xffff_ffff
  {
    LowBits(x);
    HighOnes(x);
  }

  lemma WidenOther(x: Int32)
    requires !Negative(x)
    ensures Widen(x) & 0xffff_ffff == x && Widen(x) >> 32 == 0
  {
    LowBits(x);
  }

  lemma WidenIs(x: Int32)
    ensures Widen(x) & 0xffff_ffff == x
    ensures Widen(x) >> 32 == if Negative(x) then 0xffff_ffff else 0
  {
    if Negative(x) { WidenNegative(x); } else { WidenOther(x); }
  }

  lemma LowBits(x: bv64)
    requires x >> 32 == 0
    ensures x & 0xffff_ffff == x
  {
  }

  lemma HighOnes(x: bv64)
    ensures (0xffff_ffff_0000_0000 | x) & 0xffff_ffff == x & 0xffff_ffff
    ensures (0xffff_ffff_0000_0000 | x) >> 32 == 0xffff_ffff
  {
  }

  /** The id always survives; the fd does exactly when the id is not negative, or the fd is
      -1, because a negative id fills the upper half with ones. */
  lemma RoundTrip(fd: Int32, id: Int32)
    ensures IdOf(ToUint64(fd, id)) == id
    ensures FdOf(ToUint64(fd, id)) == fd <==> !Negative(id) || fd == 0xffff_ffff
  {
    LowerHalf(Widen(fd), Widen(id));
    UpperHalf(Widen(fd), Widen(id));
    WidenIs(fd);
    WidenIs(id);
    OrOnes(fd);
  }

  lemma OrOnes(x: Int32)
    ensures x | 0xffff_ffff == 0xffff_ffff && x | 0 == x
  {
  }

  /** What a descriptor is registered with, the array that epoll_wait fills, and the counter
      that wait_event counts up. */
  class Poll {
    const events: array<bv64>
    var registered: map<Int32, bv64>
    var eventNum: nat

    constructor ()
      ensures fresh(events) && events.Length == NCAP && registered == map[] && eventNum == 0
    {
      events := new bv64[NCAP];
      registered := map[];
      eventNum := 0;
    }

    /** wait_event up to its yield: the request is put together in slot 0 of `events`.  A
        descriptor that is registered already keeps its registration: EPOLL_CTL_ADD fails
        and nobody looks. */
    method WaitEvent(fd: Int32, id: Int32)
      requires events.Length == NCAP
      modifies this, events
      ensures registered == if fd in old(registered) then old(registered) else old(registered)[fd := ToUint64(fd, id)]
      ensures eventNum == old(eventNum) + 1
      ensures events[..] == old(events[..])[0 := ToUint64(fd, id)]
    {
      events[0] := ToUint64(fd, id);
      if fd !in registered {
        registered := registered[fd := events[0]];
      }
      eventNum := eventNum + 1;
    }

    /** wait_event behind its yield. */
    method Forget(fd: Int32)
      modifies this
      ensures registered == old(registered) - {fd} && eventNum == old(eventNum)
    {
      registered := registered - {fd};
    }

    /** epoll_wait reports some registered descriptors, each once, at most NCAP of them. */
    method Report(fds: seq<Int32>) returns (n: nat)
      requires events.Length == NCAP && |fds| <= NCAP && forall fd :: fd in fds ==> fd in registered
      modifies events
      ensures n == |fds| && forall i :: 0 <= i < n ==> events[i] == registered[fds[i]]
    {
      n := |fds|;
      for i := 0 to n
        invariant forall j :: 0 <= j < i ==> events[j] == registered[fds[j]]
      {
        events[i] := registered[fds[i]];
      }
    }
  }

  /** What resuming a coroutine leads to before control is back in the loop: its descriptor
      is forgotten, and any coroutines, this one included, wait for further ones. */
  datatype Wait = Wait(fd: Int32, id: Int32)

  function Registered(registered: map<Int32, bv64>, waits: seq<Wait>): map<Int32, bv64> {
    if waits == [] then registered
    else
      var before, w := Registered(registered, waits[..|waits| - 1]), waits[|waits| - 1];
      if w.fd in before then before else before[w.fd := ToUint64(w.fd, w.id)]
  }

  /** The registrations once the first `n` reports have been handled. */
  function Handled(registered: map<Int32, bv64>, fds: seq<Int32>, script: seq<seq<Wait>>, n: nat): map<Int32, bv64>
    requires n <= |fds| && n <= |script|
  {
    if n == 0 then registered
    else Registered(Handled(registered, fds, script, n - 1) - {fds[n - 1]}, script[n - 1])
  }

  function Waits(script: seq<seq<Wait>>): nat {
    if script == [] then 0 else Waits(script[..|script| - 1]) + |script[|script| - 1]|
  }

  /** The dispatch loop.  `script[i]` are the waits that happen while the i-th reported
      coroutine has control; each of them overwrites slot 0 of the array being read.  Still
      the coroutine resumed for the i-th report is the one that registered it. */
  method Dispatch(poll: Poll, fds: seq<Int32>, ids: seq<Int32>, script: seq<seq<Wait>>)
      returns (resumed: seq<Int32>)
    requires poll.events.Length == NCAP && |fds| <= NCAP && |ids| == |fds| && |script| == |fds|
    requires forall i :: 0 <= i < |fds| ==> fds[i] in poll.registered
    requires forall i :: 0 <= i < |fds| ==> poll.registered[fds[i]] == ToUint64(fds[i], ids[i])
    modifies poll, poll.events
    ensures resumed == ids
    ensures poll.registered == Handled(old(poll.registered), fds, script, |fds|)
    ensures poll.eventNum == old(poll.eventNum) + Waits(script)
  {
    var n := poll.Report(fds);
    resumed := [];
    for i := 0 to n
      invariant resumed == ids[..i]
      invariant poll.registered == Handled(old(poll.registered), fds, script, i)
      invariant poll.eventNum == old(poll.eventNum) + Waits(script[..i])
      invariant forall j :: 0 < j < n && i <= j ==> poll.events[j] == ToUint64(fds[j], ids[j])
      invariant i == 0 && n > 0 ==> poll.events[0] == ToUint64(fds[0], ids[0])
    {
      var id := Handle(poll, i, fds[i], ids[i], script[i]);
      resumed := resumed + [id];
      assert script[..i + 1][..i] == script[..i];
    }
    assert script[..n] == script;
  }

  /** The i-th report is unpacked, and its coroutine resumed. */
  method Handle(poll: Poll, i: nat, fd: Int32, ghost id: Int32, waits: seq<Wait>) returns (resumed: Int32)
    requires poll.events.Length == NCAP && i < NCAP && poll.events[i] == ToUint64(fd, id)
    modifies poll, poll.events
    ensures resumed == id
    ensures forall j :: 0 < j < poll.events.Length ==> poll.events[j] == old(poll.events[j])
    ensures poll.registered == Registered(old(poll.registered) - {fd}, waits)
    ensures poll.eventNum == old(poll.eventNum) + |waits|
  {
    RoundTrip(fd, id);
    resumed := IdOf(poll.events[i]);
    Resume(poll, fd, waits);
  }

  method Resume(poll: Poll, fd: Int32, waits: seq<Wait>)
    requires poll.events.Length == NCAP
    modifies poll, poll.events
    ensures forall i :: 0 < i < poll.events.Length ==> poll.events[i] == old(poll.events[i])
    ensures poll.registered == Registered(old(poll.registered) - {fd}, waits)
    ensures poll.eventNum == old(poll.eventNum) + |waits|
  {
    poll.Forget(fd);
    for i := 0 to |waits|
      invariant forall i :: 0 < i < poll.events.Length ==> poll.events[i] == old(poll.events[i])
      invariant poll.registered == Registered(old(poll.registered) - {fd}, waits[..i])
      invariant poll.eventNum == old(poll.eventNum) + i
    {
      poll.WaitEvent(waits[i].fd, waits[i].id);
      assert waits[..i + 1][..i] == waits[..i];
    }
    assert waits[..|waits|] == waits;
  }
}

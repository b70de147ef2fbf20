/** The channel object: three queues changed in place.  Every method runs from one switch of
    coroutines to the next, and what it does is exactly a step of module ChannelSpec. */
module Channels {
  import opened ChannelSpec

  class Channel {
    var capacity: nat
    var dataQueue: seq<Datum>
    var producerQueue: seq<int>
    var consumerQueue: seq<int>

    ghost function View(): Chan
      reads this
    {
      Chan(capacity, dataQueue, producerQueue, consumerQueue)
    }

    /** The requested capacity is not looked at: the field keeps its default. */
    constructor (requested: int)
      ensures View() == Fresh(1).chan
    {
      capacity := 1;
      dataQueue, producerQueue, consumerQueue := [], [], [];
    }

    /** `push` by coroutine `co`, up to its yield or its end.  `armed`: a timer that will
        resume `co` was created. */
    method Push(co: int, data: Datum, timeout: int) returns (r: PushResult, armed: bool)
      modifies this
      ensures (View(), r) == PushCall(old(View()), co, data)
      ensures armed <==> r.Waits? && timeout > 0
    {
      armed := false;
      if |dataQueue| == capacity {
        armed := timeout > 0;
        producerQueue := producerQueue + [co];
        return Waits, armed;
      }
      r := PushBehindYield(data);
    }

    method PushBehindYield(data: Datum) returns (r: PushResult)
      modifies this
      ensures (View(), r) == PushRest(old(View()), data) && r != Waits
    {
      if |dataQueue| == capacity {
        return Refused;
      }
      dataQueue := dataQueue + [data];
      r := Accepted(None);
      if |consumerQueue| > 0 {
        var co := consumerQueue[0];
        consumerQueue := consumerQueue[1..];
        r := Accepted(Some(co));
      }
    }

    /** `pop` by coroutine `co`, up to its yield or its end. */
    method Pop(co: int, timeout: int) returns (r: PopResult, armed: bool)
      modifies this
      ensures (View(), r) == PopCall(old(View()), co)
      ensures armed <==> r.Sleeps? && timeout > 0
    {
      armed := false;
      if |dataQueue| == 0 {
        armed := timeout > 0;
        consumerQueue := consumerQueue + [co];
        return Sleeps, armed;
      }
      r := PopBehindYield();
    }

    method PopBehindYield() returns (r: PopResult)
      modifies this
      ensures (View(), r) == PopRest(old(View())) && r != Sleeps
    {
      if |dataQueue| == 0 {
        return Nothing;
      }
      var data := dataQueue[0];
      dataQueue := dataQueue[1..];
      r := Got(data, None);
      if |producerQueue| > 0 {
        var co := producerQueue[0];
        producerQueue := producerQueue[1..];
        r := Got(data, Some(co));
      }
    }

    method PopDataNow() returns (r: Option)
      modifies this
      ensures (View(), r) == PopData(old(View()))
      ensures r == if old(dataQueue) == [] then None else Some(old(dataQueue[0]))
      ensures dataQueue == if old(dataQueue) == [] then [] else old(dataQueue[1..])
      ensures producerQueue == old(producerQueue) && consumerQueue == old(consumerQueue)
    {
      if |dataQueue| == 0 {
        return None;
      }
      r := Some(dataQueue[0]);
      dataQueue := dataQueue[1..];
    }
  }
}

/** A bounded channel between actors: many sending handles, one receiving end. */
module Channels {
  import opened Messages

  datatype SendResult = Accepted | Full | Disconnected

  class Channel<T> {
    const capacity: nat
    var buf: seq<T>
    var open: bool

    ghost predicate Valid()
      reads this
    {
      |buf| <= capacity && (!open ==> buf == [])
    }

    ghost predicate IsNew(capacity: nat)
      reads this
    {
      open && buf == [] && this.capacity == capacity
    }

    constructor (capacity: nat)
      ensures IsNew(capacity)
    {
      this.capacity := capacity;
      buf := [];
      open := true;
    }

    /** A send goes on without waiting: there is room, or the receiving end was dropped. */
    predicate SendReady()
      reads this
    {
      !open || |buf| < capacity
    }

    /** One attempt to send; a send that finds the channel full waits and tries again. */
    method TrySend(x: T) returns (r: SendResult)
      requires Valid()
      modifies this
      ensures Valid() && open == old(open)
      ensures r.Full? <==> !old(SendReady())
      ensures r.Disconnected? <==> !old(open)
      ensures buf == if r.Accepted? then old(buf) + [x] else old(buf)
    {
      if !open {
        r := Disconnected;
      } else if |buf| < capacity {
        buf := buf + [x];
        r := Accepted;
      } else {
        r := Full;
      }
    }

    /** One attempt to receive. */
    method TryRecv() returns (x: Option<T>)
      requires Valid()
      modifies this
      ensures Valid() && open == old(open)
      ensures x.None? <==> old(buf) == []
      ensures x.Some? ==> x.value == old(buf)[0] && buf == old(buf)[1..]
      ensures x.None? ==> buf == []
    {
      if buf == [] {
        x := None;
      } else {
        x := Some(buf[0]);
        buf := buf[1..];
      }
    }

    /** The receiving end is dropped, and what is in the channel with it. */
    method Drop()
      modifies this
      ensures Valid() && !open && buf == []
    {
      buf := [];
      open := false;
    }
  }
}

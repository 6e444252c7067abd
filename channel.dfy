/**
 * A buffered Go channel. `buffered` holds what was sent and not yet
 * received, oldest first. An operation that would block in Go (a send on a
 * full channel, a receive on an empty open one) or panic (a send on or a
 * second close of a closed channel) is excluded by its precondition, so a
 * caller that verifies is a caller that never blocks or panics there.
 */
module Channels {
  import opened Types

  class Channel<T> {
    const capacity: nat
    var buffered: seq<T>
    var closed: bool

    ghost predicate Valid()
      reads this
    {
      |buffered| <= capacity
    }

    /** A new channel: empty, open, with room for `capacity` values. */
    constructor (capacity: nat)
      ensures Valid() && this.capacity == capacity
      ensures buffered == [] && !closed
    {
      this.capacity := capacity;
      buffered := [];
      closed := false;
    }

    /** A send on an open channel whose buffer has room: the value joins the back of the buffer. */
    method Send(x: T)
      requires Valid() && !closed && |buffered| < capacity
      modifies this
      ensures Valid() && closed == old(closed)
      ensures buffered == old(buffered) + [x]
    {
      buffered := buffered + [x];
    }

    /** A non-blocking send: it sends only if the buffer has room, and otherwise gives up. */
    method TrySend(x: T) returns (sent: bool)
      requires Valid() && !closed
      modifies this
      ensures Valid() && closed == old(closed)
      ensures sent <==> |old(buffered)| < capacity
      ensures buffered == if sent then old(buffered) + [x] else old(buffered)
    {
      sent := |buffered| < capacity;
      if sent {
        buffered := buffered + [x];
      }
    }

    /** Closing: no more sends, and what is buffered stays receivable. */
    method Close()
      requires Valid() && !closed
      modifies this
      ensures Valid() && closed
      ensures buffered == old(buffered)
    {
      closed := true;
    }

    /** A receive on a channel that is closed or holds something: the oldest value, or None once closed and drained. */
    method Receive() returns (x: Option<T>)
      requires Valid() && (closed || buffered != [])
      modifies this
      ensures Valid() && closed == old(closed)
      ensures old(buffered) == [] ==> x == None && buffered == []
      ensures old(buffered) != [] ==> x == Some(old(buffered)[0]) && buffered == old(buffered)[1..]
    {
      if buffered == [] {
        x := None;
      } else {
        x := Some(buffered[0]);
        buffered := buffered[1..];
      }
    }
  }
}

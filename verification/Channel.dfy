/**
 * A buffered Go channel used only through non-blocking operations: a send whose
 * `default` branch is taken when the buffer is full, and a receive that is
 * attempted only when a value is ready. The buffer is a ring.
 */
module Channels {

  class Channel<T(0)> {
    const buffer: array<T>
    var first: nat
    var count: nat

    ghost predicate Valid()
      reads this, buffer
    {
      && 0 < buffer.Length
      && first < buffer.Length
      && count <= buffer.Length
    }

    /** The queued values, oldest first. */
    ghost function Contents(): (queued: seq<T>)
      requires Valid()
      reads this, buffer
      ensures |queued| == count
    {
      if first + count <= buffer.Length then buffer[first..first + count]
      else buffer[first..] + buffer[..first + count - buffer.Length]
    }

    constructor (capacity: nat)
      requires 0 < capacity
      ensures Valid() && fresh(buffer)
      ensures buffer.Length == capacity && Contents() == []
    {
      buffer := new T[capacity];
      first, count := 0, 0;
    }

    /** `select { case ch <- x: default: }`. */
    method TrySend(x: T) returns (sent: bool)
      requires Valid()
      modifies this, buffer
      ensures Valid()
      ensures sent <==> |old(Contents())| < buffer.Length
      ensures Contents() == if sent then old(Contents()) + [x] else old(Contents())
    {
      sent := count < buffer.Length;
      if sent {
        var slot := if first + count < buffer.Length then first + count else first + count - buffer.Length;
        buffer[slot] := x;
        count := count + 1;
      }
    }

    /** `select { case x := <-ch: default: }`. */
    method TryReceive() returns (received: bool, x: T)
      requires Valid()
      modifies this
      ensures Valid()
      ensures received <==> old(Contents()) != []
      ensures received ==> old(Contents()) == [x] + Contents()
      ensures !received ==> Contents() == []
    {
      x := buffer[first];
      received := 0 < count;
      if received {
        ghost var was := Contents();
        first := if first + 1 == buffer.Length then 0 else first + 1;
        count := count - 1;
        assert Contents() == was[1..];
      }
    }
  }
}

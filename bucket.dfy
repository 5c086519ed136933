/** The token bucket: a buffered Go channel of empty structs (`chan nothing`).
    Tokens carry no identity, so the channel is fully described by its
    capacity (`cap`) and the number of tokens it holds (`len`). Blocking
    operations are enabled only in the states where they can proceed. */
module Bucket {

  class TokenBucket {
    const capacity: nat
    var count: nat

    /** A buffered channel never holds more than its capacity. */
    ghost predicate Valid()
      reads this
    {
      count <= capacity
    }

    /** `make(tokenBucket, capacity)`: an empty channel. */
    constructor (capacity: nat)
      ensures Valid()
      ensures this.capacity == capacity && count == 0
    {
      this.capacity := capacity;
      count := 0;
    }

    /** Blocking send `b <- nothing{}`; it proceeds only on a bucket that is not full. */
    method Send()
      requires Valid() && count < capacity
      modifies this
      ensures Valid()
      ensures count == old(count) + 1
    {
      count := count + 1;
    }

    /** Blocking receive `<-b`; it proceeds only on a bucket that is not empty. */
    method Receive()
      requires Valid() && count > 0
      modifies this
      ensures Valid()
      ensures count == old(count) - 1
    {
      count := count - 1;
    }

    /** Non-blocking receive: `select { case <-b: ... default: ... }`.
        `ok` tells whether a token was taken. */
    method TryReceive() returns (ok: bool)
      requires Valid()
      modifies this
      ensures Valid()
      ensures ok <==> old(count) > 0
      ensures count == if ok then old(count) - 1 else old(count)
    {
      ok := count > 0;
      if ok {
        count := count - 1;
      }
    }
  }
}

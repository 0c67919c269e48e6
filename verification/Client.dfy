/** server/client.go: one connection. The channel's buffer and the frames put on the wire
    are fields; the abstract channel is kept beside them. */
module ClientClass {
  import opened Frames
  import opened Channel

  class Client {
    const id: nat
    var send: seq<Frame>
    var closed: bool
    var written: seq<Frame>
    ghost var chan: Chan

    ghost predicate Valid()
      reads this
    {
      && Bounded(chan)
      && chan.hist == written + send && chan.popped == |written|
      && (closed <==> !Open(chan))
    }

    constructor (id: nat)
      ensures Valid() && this.id == id && chan == NEW_CHAN
    {
      this.id := id;
      send, written, closed := [], [], false;
      chan := NEW_CHAN;
    }

    /** A send that drops when the buffer is full, and panics on a closed channel. */
    method SendEnvelope(f: Frame) returns (panicked: bool)
      requires Valid()
      modifies this
      ensures Valid() && panicked == !Open(old(chan))
      ensures chan == if panicked then old(chan) else Push(old(chan), f)
      ensures send == old(send) + if !panicked && |old(send)| < 16 then [f] else []
      ensures written == old(written) && closed == old(closed)
    {
      if closed { return true; }
      if |send| < CAPACITY { send := send + [f]; }
      chan := Push(chan, f);
      return false;
    }

    /** close: a second one panics. */
    method CloseSend() returns (panicked: bool)
      requires Valid()
      modifies this
      ensures Valid() && panicked == !Open(old(chan))
      ensures chan == if panicked then old(chan) else Close(old(chan))
    {
      if closed { return true; }
      closed := true;
      chan := Close(chan);
      return false;
    }

    /** One turn of the write pump: the oldest waiting frame goes out on the wire. */
    method WriteOne()
      requires Valid() && send != []
      modifies this
      ensures Valid() && chan == Take(old(chan), 1)
      ensures send == old(send)[1..] && written == old(written) + [old(send)[0]] && closed == old(closed)
    {
      written, send := written + [send[0]], send[1..];
      chan := Take(chan, 1);
    }

    /** The write pump's loop, for as long as it is scheduled: up to k frames, in order,
        also after the channel was closed. */
    method WritePump(k: nat)
      requires Valid()
      modifies this
      ensures Valid() && chan == Take(old(chan), k)
      ensures exists n :: (0 <= n <= |old(send)| && (n == k || n == |old(send)| < k)
        && written == old(written) + old(send)[..n] && send == old(send)[n..])
      ensures closed == old(closed)
    {
      var i := 0;
      while i < k && send != []
        invariant 0 <= i <= k && i <= |old(send)|
        invariant Valid() && chan == Take(old(chan), i) && closed == old(closed)
        invariant send == old(send)[i..] && written == old(written) + old(send)[..i]
      {
        WriteOne();
        i := i + 1;
      }
    }
  }
}

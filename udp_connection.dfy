/**
  * UDPConnection: the datagram transport. Its receive path splits a buffer that may hold
  * several coalesced DNS messages into one packet per message; its close and attach steps
  * move the connection through OPENED, CLOSING and CLOSED.
  *
  * The superclass Connection is not part of this model. Its hooks are modelled by what the
  * UDP code relies on: `readFromChannel` appends the received datagram to the receive
  * buffer, `clearRecvBytes(n)` drops the first n buffered bytes, `sendToUser` hands a packet
  * to the listener, and `closeComplete` ends in CLOSED.
  */
module UdpConnectionModel {
  import opened Common
  import opened Nio
  import opened DnsTypes

  /** Connection.State. */
  datatype State = CONNECTING | OPENED | CLOSING | CLOSED

  /** Calls the connection makes on its key, its channel and its superclass, in order. */
  datatype Effect =
    | SetInterest(ops: bv32)   // sk.interestOps(ops)
    | SetState(s: State)       // setState(s)
    | CloseChannel             // sc.close()
    | CloseComplete            // closeComplete()
    | Sent(data: Bytes)        // sc.write(data)
    | EndWrite(unsent: Bytes)  // commonEndWrite(data), with the bytes data still has remaining

  /**
    * What `sc.write(data)` on the nonblocking datagram channel did: sent the whole datagram,
    * sent nothing (it returned 0 because the socket buffer was full), or threw an IOException.
    */
  datatype WriteOutcome = SentAll | SentNothing | WriteFailed

  /** The packets doRead hands to the listener, and the bytes it leaves in the buffer. */
  datatype Framing = Framing(packets: seq<Bytes>, rest: Bytes)

  /**
    * Length of the packet cut from a buffer of `count` bytes whose first message reports
    * `n` bytes: the message alone when it is shorter than the buffer, otherwise the whole buffer.
    */
  function PacketLength(n: int, count: nat): (k: nat)
    requires n > 0 && count > 0
    ensures 0 < k <= count
    ensures k <= n
    ensures k == n || k == count
  {
    if n < count then n else count
  }

  /**
    * The receive loop of doRead, unrolled: cut a packet, deliver it, drop it, until empty or
    * unparseable.
    */
  function Split(c: Codec, buf: Bytes): (f: Framing)
    requires WellFormed(c)
    decreases |buf|
  {
    if |buf| == 0 then Framing([], [])
    else
      match MessageLength(c, buf)
      case None => Framing([], buf)
      case Some(n) =>
        var k := PacketLength(n, |buf|);
        var tail := Split(c, buf[k..]);
        Framing([buf[..k]] + tail.packets, tail.rest)
  }

  /** The packets laid end to end. */
  function Flatten(packets: seq<Bytes>): (bytes: Bytes)
  {
    if packets == [] then [] else packets[0] + Flatten(packets[1..])
  }

  /** One turn of the receive loop: a parseable buffer yields its first packet, then the split of the rest. */
  lemma SplitStep(c: Codec, buf: Bytes)
    requires WellFormed(c) && |buf| > 0 && MessageLength(c, buf).Some?
    ensures var k := PacketLength(MessageLength(c, buf).value, |buf|);
      Split(c, buf) == Framing([buf[..k]] + Split(c, buf[k..]).packets, Split(c, buf[k..]).rest)
  {
  }

  /** Flattening a packet list that starts with `p`. */
  lemma FlattenCons(p: Bytes, ps: seq<Bytes>)
    ensures Flatten([p] + ps) == p + Flatten(ps)
  {
    assert ([p] + ps)[1..] == ps;
  }

  /** Nothing is lost, duplicated or reordered: the packets followed by the rest are the buffer. */
  lemma {:induction false} SplitPreservesBytes(c: Codec, buf: Bytes)
    requires WellFormed(c)
    ensures Flatten(Split(c, buf).packets) + Split(c, buf).rest == buf
    decreases |buf|
  {
    if |buf| > 0 && MessageLength(c, buf).Some? {
      var k := PacketLength(MessageLength(c, buf).value, |buf|);
      var tail := Split(c, buf[k..]);
      SplitPreservesBytes(c, buf[k..]);
      SplitStep(c, buf);
      FlattenCons(buf[..k], tail.packets);
      calc {
        Flatten(Split(c, buf).packets) + Split(c, buf).rest;
        (buf[..k] + Flatten(tail.packets)) + tail.rest;
        buf[..k] + (Flatten(tail.packets) + tail.rest);
        buf[..k] + buf[k..];
        buf;
      }
    }
  }

  /** Every packet consumes at least one byte: no more packets than bytes taken from the buffer. */
  lemma {:induction false} SplitProgress(c: Codec, buf: Bytes)
    requires WellFormed(c)
    ensures |Split(c, buf).rest| <= |buf|
    ensures |Split(c, buf).packets| <= |buf| - |Split(c, buf).rest|
    decreases |buf|
  {
    if |buf| > 0 && MessageLength(c, buf).Some? {
      var k := PacketLength(MessageLength(c, buf).value, |buf|);
      SplitProgress(c, buf[k..]);
      SplitStep(c, buf);
    }
  }

  /**
    * Every delivered packet is non-empty, and the loop stops only on an empty buffer or on
    * bytes that do not parse, which stay in the buffer.
    */
  lemma {:induction false} SplitStopsOnParseError(c: Codec, buf: Bytes)
    requires WellFormed(c)
    ensures forall p :: p in Split(c, buf).packets ==> p != []
    ensures Split(c, buf).rest == [] || MessageLength(c, Split(c, buf).rest).None?
    decreases |buf|
  {
    if |buf| > 0 && MessageLength(c, buf).Some? {
      var k := PacketLength(MessageLength(c, buf).value, |buf|);
      SplitStopsOnParseError(c, buf[k..]);
    }
  }

  /**
    * The first packet is a prefix of the buffer: the parsed message when it is shorter than
    * the buffer, otherwise the whole buffer. A buffer that does not parse delivers nothing.
    */
  lemma FirstPacket(c: Codec, buf: Bytes)
    requires WellFormed(c) && buf != []
    ensures MessageLength(c, buf).None? ==> Split(c, buf) == Framing([], buf)
    ensures MessageLength(c, buf).Some? ==>
      var n := MessageLength(c, buf).value;
      Split(c, buf).packets != [] &&
      Split(c, buf).packets[0] == (if n < |buf| then buf[..n] else buf)
  {
  }

  /** The bytes of `data` still remaining after a write with this outcome. */
  function Unsent(data: Bytes, outcome: WriteOutcome): (rest: Bytes)
    ensures rest == [] || rest == data
    ensures rest == [] <==> data == [] || outcome == SentAll
  {
    if outcome == SentAll then [] else data
  }

  class UDPConnection {
    const udpSize: int
    var state: State
    var sk: Option<Key>
    var recv: Bytes                 // recvBytes[0 .. recvCount)
    var delivered: seq<Bytes>       // packets passed to sendToUser, oldest first
    var effects: seq<Effect>

    /** An open connection has a key and a channel; CLOSING never outlasts a call to Close. */
    ghost predicate Valid()
      reads this
    {
      (state == OPENED ==> sk.Some? && sk.value.channel.Some?) &&
      state != CLOSING
    }

    /** UDPConnection(listener, udpSize): not yet connected, nothing buffered. */
    constructor (udpSize: int)
      ensures Valid()
      ensures this.udpSize == udpSize
      ensures state == CONNECTING && sk == None
      ensures recv == [] && delivered == [] && effects == []
    {
      this.udpSize := udpSize;
      state := CONNECTING;
      sk := None;
      recv := [];
      delivered := [];
      effects := [];
    }

    /**
      * Attaches the key; only a connected channel makes the connection OPENED with interest
      * in reads and writes.
      */
    method Attach(key: Key)
      requires Valid()
      requires key.channel.Some?
      modifies this
      ensures Valid()
      ensures key.channel.value.connected ==>
        sk == Some(key.(interestOps := OP_READ | OP_WRITE)) && state == OPENED &&
        effects == old(effects) + [SetInterest(OP_READ | OP_WRITE), SetState(OPENED)]
      ensures !key.channel.value.connected ==>
        sk == Some(key) && state == old(state) && effects == old(effects)
      ensures recv == old(recv) && delivered == old(delivered)
    {
      sk := Some(key);
      if key.channel.value.connected {
        sk := Some(key.(interestOps := OP_READ | OP_WRITE));
        effects := effects + [SetInterest(OP_READ | OP_WRITE)];
        state := OPENED;
        effects := effects + [SetState(OPENED)];
      }
    }

    /** Connect completion: nothing to do for a datagram channel. */
    method DoConnect()
      ensures unchanged(this)
    {
    }

    /**
      * Handles a read-ready selection. `read` is the datagram readFromChannel appended, or
      * None when it hit a NullPointerException (the connection was closed under it).
      */
    method DoRead(c: Codec, read: Option<Bytes>)
      requires WellFormed(c)
      requires sk.Some?
      modifies this
      ensures read.None? ==> unchanged(this)
      ensures read.Some? ==>
        var f := Split(c, old(recv) + read.value);
        delivered == old(delivered) + f.packets && recv == f.rest
      ensures state == old(state) && sk == old(sk) && effects == old(effects)
    {
      if read.None? {
        return;
      }
      recv := recv + read.value;
      ghost var whole := recv;
      ghost var done: seq<Bytes> := [];
      while |recv| > 0
        invariant Split(c, whole).packets == done + Split(c, recv).packets
        invariant Split(c, whole).rest == Split(c, recv).rest
        invariant delivered == old(delivered) + done
        invariant state == old(state) && sk == old(sk) && effects == old(effects)
        decreases |recv|
      {
        var n := MessageLength(c, recv);
        if n.None? {
          break;
        }
        var k := PacketLength(n.value, |recv|);
        var packet := recv[..k];
        SplitStep(c, recv);
        assert done + Split(c, recv).packets == (done + [packet]) + Split(c, recv[k..]).packets;
        delivered := delivered + [packet];
        done := done + [packet];
        recv := recv[k..];
      }
    }

    /**
      * Writes `data` on an open channel. Only a write that sent the datagram records it as
      * sent; commonEndWrite sees whatever is still unsent.
      */
    method Write(data: Bytes, outcome: WriteOutcome)
      requires Valid()
      requires sk.Some? && sk.value.channel.Some?
      modifies this
      ensures Valid()
      ensures !old(sk).value.channel.value.open ==> effects == old(effects) && state == old(state)
      ensures old(sk).value.channel.value.open ==>
        effects == old(effects) +
          (if data == [] then []
           else if outcome == SentAll then [Sent(data)]
           else if outcome == WriteFailed then [CloseComplete]
           else []) +
          [EndWrite(Unsent(data, outcome))]
      ensures state == (if old(sk).value.channel.value.open && data != [] && outcome == WriteFailed
                        then CLOSED else old(state))
      ensures sk == old(sk) && recv == old(recv) && delivered == old(delivered)
    {
      var unsent := data;
      if sk.value.channel.value.open {
        if data != [] {
          match outcome
          case SentAll =>
            effects := effects + [Sent(data)];
            unsent := [];
          case SentNothing =>
          case WriteFailed =>
            state := CLOSED;
            effects := effects + [CloseComplete];
        }
        effects := effects + [EndWrite(unsent)];
      }
    }

    /**
      * Closes the connection once: an already closed or closing connection, or one without
      * an open channel, is left as it is and false is returned.
      */
    method Close() returns (didClose: bool)
      requires Valid()
      modifies this
      ensures Valid()
      ensures didClose <==>
        old(state) != CLOSED && old(state) != CLOSING &&
        old(sk).Some? && old(sk).value.channel.Some? && old(sk).value.channel.value.open
      ensures !didClose ==> state == old(state) && sk == old(sk) && effects == old(effects)
      ensures didClose ==> state == CLOSED
      ensures didClose && old(state) == OPENED ==>
        sk == Some(Key(0, Some(old(sk).value.channel.value.(open := false)))) &&
        effects == old(effects) + [SetInterest(0), SetState(CLOSING), CloseChannel, CloseComplete]
      ensures didClose && old(state) != OPENED ==>
        sk == old(sk) && effects == old(effects) + [CloseComplete]
      ensures recv == old(recv) && delivered == old(delivered)
    {
      didClose := false;
      if state != CLOSED && state != CLOSING {
        if sk.Some? {
          var sc := sk.value.channel;
          if sc.Some? && sc.value.open {
            didClose := true;
            if state == OPENED {
              sk := Some(sk.value.(interestOps := 0));
              effects := effects + [SetInterest(0)];
              state := CLOSING;
              effects := effects + [SetState(CLOSING)];
              sk := Some(sk.value.(channel := Some(sc.value.(open := false))));
              effects := effects + [CloseChannel];
            }
            state := CLOSED;
            effects := effects + [CloseComplete];
          }
        }
      }
    }
  }

  /**
    * Close is idempotent: a second close reports false, and the two calls together have
    * exactly the effect of the first.
    */
  method CloseTwice(conn: UDPConnection) returns (first: bool, second: bool)
    requires conn.Valid()
    modifies conn
    ensures conn.Valid()
    ensures !second
    ensures first <==>
      old(conn.state) != CLOSED && old(conn.state) != CLOSING &&
      old(conn.sk).Some? && old(conn.sk).value.channel.Some? && old(conn.sk).value.channel.value.open
    ensures conn.state == (if first then CLOSED else old(conn.state))
    ensures conn.effects == old(conn.effects) +
      (if !first then []
       else if old(conn.state) == OPENED then [SetInterest(0), SetState(CLOSING), CloseChannel, CloseComplete]
       else [CloseComplete])
    ensures conn.sk == (if first && old(conn.state) == OPENED
                        then Some(Key(0, Some(old(conn.sk).value.channel.value.(open := false))))
                        else old(conn.sk))
    ensures conn.recv == old(conn.recv) && conn.delivered == old(conn.delivered)
  {
    first := conn.Close();
    second := conn.Close();
  }
}

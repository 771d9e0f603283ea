/**
  * Values standing for the java.nio objects the core touches: the readiness bits of a
  * selection key, a datagram channel, and a selection key with its interest set and channel.
  */
module Nio {
  import opened Common

  /** SelectionKey.OP_READ, OP_WRITE and OP_CONNECT (bits 0, 2 and 3). */
  const OP_READ: bv32 := 1
  const OP_WRITE: bv32 := 4
  const OP_CONNECT: bv32 := 8

  /** Whether the bit (or bits) `op` are all set in `ops`, as `(ops & op) == op`. */
  predicate HasOp(ops: bv32, op: bv32) {
    ops & op == op
  }

  /** A datagram channel: `isOpen()` and `isConnected()`. */
  datatype Channel = Channel(open: bool, connected: bool)

  /** A selection key: its interest set and its channel (`channel()` may be null). */
  datatype Key = Key(interestOps: bv32, channel: Option<Channel>)
}

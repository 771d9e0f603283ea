/** Small value types shared by the model, and the Java integer semantics it needs. */
module Common {

  datatype Option<T> = None | Some(value: T)

  datatype Result<T, E> = Ok(value: T) | Err(error: E)

  /** One octet of a datagram or of a serialised message. */
  newtype uint8 = x: int | 0 <= x < 0x100

  type Bytes = seq<uint8>

  /** Java `int`: 32-bit two's complement. */
  predicate IsInt32(x: int) {
    -0x8000_0000 <= x < 0x8000_0000
  }

  /** Java `short`: 16-bit two's complement. */
  predicate IsInt16(x: int) {
    -0x8000 <= x < 0x8000
  }

  /** The value Java keeps when an `int` computation overflows (wrap-around modulo 2^32). */
  function ToInt32(x: int): (r: int)
    ensures IsInt32(r)
    ensures (x - r) % 0x1_0000_0000 == 0
    ensures IsInt32(x) ==> r == x
  {
    var m := (x + 0x8000_0000) % 0x1_0000_0000;
    assert x - (m - 0x8000_0000) == ((x + 0x8000_0000) / 0x1_0000_0000) * 0x1_0000_0000;
    m - 0x8000_0000
  }

  /** The value Java keeps when a result is narrowed to `short` (wrap-around modulo 2^16). */
  function ToInt16(x: int): (r: int)
    ensures IsInt16(r)
    ensures (x - r) % 0x1_0000 == 0
    ensures IsInt16(x) ==> r == x
  {
    var m := (x + 0x8000) % 0x1_0000;
    assert x - (m - 0x8000) == ((x + 0x8000) / 0x1_0000) * 0x1_0000;
    m - 0x8000
  }

  function Abs(x: int): (r: nat)
    ensures r == x || r == -x
  {
    if x < 0 then -x else x
  }

  /** Java's `/` on `int`: the quotient is truncated toward zero (Dafny's `/` is Euclidean). */
  function JavaDiv(a: int, d: int): (q: int)
    requires d > 0
    ensures Abs(q) == Abs(a) / d
    ensures q < 0 ==> a < 0
    ensures a < 0 ==> q <= 0
  {
    if a >= 0 then a / d else -((-a) / d)
  }
}

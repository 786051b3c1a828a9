/**
 * Already-decoded messages as the motors service sees them after a
 * msgpack unpack of a message received on a subscribed bus socket.
 *
 * A decoded message is an array of msgpack objects. The service reads each
 * element through one of two views of the object's value union: `via.i64`
 * (a 64-bit integer) or `via.dec` (a double). The wire format, the type tag
 * of each element and the socket itself are outside the model.
 */
module Messages {

  /** One array element, seen through the two union views the service reads. */
  datatype Elem = Elem(i64: int, dec: real)

  /** What one receive-and-unpack attempt yields. */
  datatype Recv =
    | Timeout                       // scl_recv_static returned 0 or less
    | Undecodable                   // msgpack_unpack_next failed
    | Array(items: seq<Elem>)       // root object, an array (asserted by the service)

  const INT32_MODULUS: int := 0x1_0000_0000
  const INT32_MIN: int := -0x8000_0000
  const INT32_MAX: int := 0x7fff_ffff

  /**
   * Conversion of a 64-bit integer to a C `int` on a 32-bit-int, two's
   * complement platform: the value is reduced modulo 2^32 into the signed range.
   */
  function ToInt32(x: int): (r: int)
    ensures INT32_MIN <= r <= INT32_MAX
    ensures (r - x) % INT32_MODULUS == 0
    ensures INT32_MIN <= x <= INT32_MAX ==> r == x
  {
    (x - INT32_MIN) % INT32_MODULUS + INT32_MIN
  }

  /**
   * An array the service can read element 0 of. Both messages are read that
   * way: a forces message `[enable, f_0, .., f_n]` (one force per motor) and
   * a voltage message, documented as `[sum, c_0, .., c_n]`.
   */
  predicate HasElement0(items: seq<Elem>) {
    1 <= |items|
  }

  /** The enable integer of a forces message: element 0 read as `int`. */
  function Enable(items: seq<Elem>): (e: int)
    requires HasElement0(items)
    ensures INT32_MIN <= e <= INT32_MAX
    ensures INT32_MIN <= items[0].i64 <= INT32_MAX ==> e == items[0].i64
  {
    ToInt32(items[0].i64)
  }

  /** The number of forces in a forces message: the array size minus one. */
  function ForceCount(items: seq<Elem>): (n: nat)
    requires HasElement0(items)
    ensures n + 1 == |items|
  {
    |items| - 1
  }

  /** The requested force of motor `i`: element `i + 1` read as a double. */
  function Force(items: seq<Elem>, i: nat): real
    requires HasElement0(items) && i < ForceCount(items)
  {
    items[i + 1].dec
  }

  /** A voltage sample is element 0 of the array, read as a double. */
  function VoltageSample(items: seq<Elem>): real
    requires HasElement0(items)
  {
    items[0].dec
  }

  /** A 64-bit enable of 2^32 is read as `int` 0: the wrap-around is not a no-op. */
  lemma EnableWrapsAtInt32()
    ensures Enable([Elem(INT32_MODULUS, 0.0)]) == 0
    ensures Enable([Elem(INT32_MAX + 1, 0.0)]) == INT32_MIN
  {
  }
}

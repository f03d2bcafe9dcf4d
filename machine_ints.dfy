/** The machine integer types of the Go source, written out over unbounded `int`. */
module MachineInts {

  const TWO_TO_THE_64: int := 0x1_0000_0000_0000_0000
  const TWO_TO_THE_63: int := 0x8000_0000_0000_0000

  /** Go `uint64`. */
  type U64 = x: int | 0 <= x < 0x1_0000_0000_0000_0000

  /** Go `int64`. */
  type I64 = x: int | -0x8000_0000_0000_0000 <= x < 0x8000_0000_0000_0000

  /** A `uint64` that the kernel guarantees to be positive (a CFS period). */
  type PositiveU64 = x: int | 0 < x < 0x1_0000_0000_0000_0000 witness 1

  /** Reduction of an exact result into `uint64`, as Go's unsigned arithmetic does. */
  function Wrap64(x: int): (r: U64)
    ensures 0 <= x < TWO_TO_THE_64 ==> r == x
  {
    x % 0x1_0000_0000_0000_0000
  }

  /** Wrapping after every addition gives the same uint64 as wrapping the exact sum once. */
  lemma WrapAdd(a: int, b: int)
    ensures Wrap64(Wrap64(a) + b) == Wrap64(a + b)
  {
    var q := a / TWO_TO_THE_64;
    assert a == Wrap64(a) + q * TWO_TO_THE_64;
    assert a + b == (Wrap64(a) + b) + q * TWO_TO_THE_64;
    ModShift(Wrap64(a) + b, q);
  }

  /** One step of a wrapping accumulation: the running uint64 plus `v` is the wrapped exact sum. */
  lemma WrapStep(running: U64, before: int, v: U64, after: int)
    requires running == Wrap64(before) && after == before + v
    ensures Add64(running, v) == Wrap64(after)
  {
    WrapAdd(before, v);
  }

  lemma ModShift(x: int, q: int)
    ensures (x + q * TWO_TO_THE_64) % TWO_TO_THE_64 == x % TWO_TO_THE_64
  {
    var r := x % TWO_TO_THE_64;
    var p := x / TWO_TO_THE_64;
    assert x + q * TWO_TO_THE_64 == r + (p + q) * TWO_TO_THE_64;
  }

  /** Go `a + b` on `uint64`. */
  function Add64(a: U64, b: U64): (s: U64)
    ensures a + b < TWO_TO_THE_64 ==> s == a + b
    ensures a + b >= TWO_TO_THE_64 ==> s == a + b - TWO_TO_THE_64
  {
    Wrap64(a + b)
  }

  /** Go `a - b` on `uint64`: a decreasing counter gives a large positive difference. */
  function Sub64(a: U64, b: U64): (d: U64)
    ensures a >= b ==> d == a - b
    ensures a < b ==> d == a - b + TWO_TO_THE_64 && d > 0
  {
    Wrap64(a - b)
  }

  /** Go integer division `a / b`, which truncates toward zero. */
  function GoDiv(a: int, b: int): (q: int)
    requires b > 0
    ensures 0 <= a ==> 0 <= q * b <= a < q * b + b
    ensures a < 0 ==> q * b - b < a <= q * b <= 0
  {
    var n := if a >= 0 then a else -a;
    var m := n / b;
    assert m * b + n % b == n && 0 <= n % b < b;
    if a >= 0 then m else -m
  }
}

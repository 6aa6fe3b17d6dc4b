/** Java's 32-bit two's-complement `int`, whose arithmetic wraps around. */
module JavaInt {

  const MIN_INT: int := -0x8000_0000
  const MAX_INT: int := 0x7fff_ffff
  const TWO_32: int := 0x1_0000_0000

  newtype int32 = x: int | -0x8000_0000 <= x < 0x8000_0000

  /** The value a Java `int` operation yields when the exact result is `x`. */
  function Wrap(x: int): (r: int32)
    ensures MIN_INT <= x <= MAX_INT ==> r as int == x
    ensures (x - r as int) % TWO_32 == 0
  {
    var m := (x - MIN_INT) % TWO_32;
    assert x - (m + MIN_INT) == TWO_32 * ((x - MIN_INT) / TWO_32);
    (m + MIN_INT) as int32
  }

  /** Two exact results that agree modulo 2^32 wrap to the same `int`. */
  lemma WrapCongruent(x: int, y: int)
    requires (x - y) % TWO_32 == 0
    ensures Wrap(x) == Wrap(y)
  {
    var k := (x - y) / TWO_32;
    assert x - MIN_INT == (y - MIN_INT) + TWO_32 * k;
    ModShift(y - MIN_INT, k);
  }

  lemma ModShift(a: int, k: int)
    ensures (a + TWO_32 * k) % TWO_32 == a % TWO_32
  {
    var q := a / TWO_32;
    var r := a % TWO_32;
    assert a + TWO_32 * k == TWO_32 * (q + k) + r;
  }

  /** Wrapping an intermediate result changes nothing in a later subtraction:
      Java computes `a - (b - c)` on wrapped values as if exactly. */
  lemma {:induction false} WrapSubWrapped(a: int, b: int)
    ensures Wrap(a - Wrap(b) as int) == Wrap(a - b)
  {
    var wb := Wrap(b) as int;
    assert (b - wb) % TWO_32 == 0;
    var k := (b - wb) / TWO_32;
    assert (a - wb) - (a - b) == TWO_32 * k;
    ModShift(0, k);
    assert ((a - wb) - (a - b)) % TWO_32 == 0;
    WrapCongruent(a - wb, a - b);
  }

  /** The same for an addition whose first operand was wrapped. */
  lemma {:induction false} WrapAddWrapped(a: int, b: int)
    ensures Wrap(Wrap(a) as int + b) == Wrap(a + b)
  {
    var wa := Wrap(a) as int;
    var k := (a - wa) / TWO_32;
    assert (a + b) - (wa + b) == TWO_32 * k;
    ModShift(0, k);
    WrapCongruent(wa + b, a + b);
  }

  /** The same for a multiplication: Java computes `k * a + b` on a wrapped
      `a` as if exactly, up to the final wrap. */
  lemma {:induction false} WrapMulAddWrapped(k: int, a: int, b: int)
    ensures Wrap(k * Wrap(a) as int + b) == Wrap(k * a + b)
  {
    var wa := Wrap(a) as int;
    var m := (a - wa) / TWO_32;
    assert a - wa == TWO_32 * m;
    assert (k * a + b) - (k * wa + b) == k * (a - wa) == TWO_32 * (k * m);
    ModShift(0, k * m);
    WrapCongruent(k * a + b, k * wa + b);
  }
}

/** Bus-level vocabulary shared by the mapper model: byte and address widths,
    the integer model of the C bitwise AND, and the fault and result types
    that replace out-of-bounds memory accesses and the fatal mirror assert. */
module NesBus {

  /** An unsigned 8-bit value (`uint8_t`). */
  type byte = x: int | 0 <= x < 0x100

  /** An unsigned 16-bit bus address (`uint16_t`). */
  type u16 = x: int | 0 <= x < 0x1_0000

  function Pow2(k: nat): (r: nat)
    ensures r >= 1
  {
    if k == 0 then 1 else 2 * Pow2(k - 1)
  }

  /** The C operator `a & b` on non-negative integers, one bit at a time
      from the least significant end. */
  function BitAnd(a: nat, b: nat): (r: nat)
    ensures r <= a && r <= b
  {
    if a == 0 || b == 0 then 0 else 2 * BitAnd(a / 2, b / 2) + (a % 2) * (b % 2)
  }

  lemma MulAtLeast(d: nat, n: int)
    requires d >= 1 && n >= 1
    ensures d * n >= d
  {
  }

  /** Euclidean division has exactly one quotient and remainder. */
  lemma DivModUnique(a: int, d: int, m: int, t: int)
    requires d >= 1 && a == d * m + t && 0 <= t < d
    ensures a % d == t && a / d == m
  {
    var m', t' := a / d, a % d;
    assert d * m + t == d * m' + t';
    if m > m' {
      MulAtLeast(d, m - m');
    } else if m < m' {
      MulAtLeast(d, m' - m);
    }
  }

  /** Peeling off the lowest bit commutes with taking a remainder by a power of two. */
  lemma DivModStep(a: nat, p: nat)
    requires p >= 1
    ensures a % (2 * p) == 2 * ((a / 2) % p) + a % 2
  {
    var q, r := a / 2, a % 2;
    var m, s := q / p, q % p;
    assert q == p * m + s;
    assert a == (2 * p) * m + (2 * s + r);
    DivModUnique(a, 2 * p, m, 2 * s + r);
  }

  /** Masking with `2^k - 1` keeps exactly the low `k` bits: it is the
      remainder modulo `2^k`. */
  lemma {:induction false} LowBitsMask(a: nat, k: nat)
    ensures BitAnd(a, Pow2(k) - 1) == a % Pow2(k)
  {
    if k == 0 || a == 0 {
    } else {
      var p := Pow2(k - 1);
      var mask := Pow2(k) - 1;
      assert mask == 2 * (p - 1) + 1;
      assert mask / 2 == p - 1 && mask % 2 == 1;
      assert BitAnd(a, mask) == 2 * BitAnd(a / 2, p - 1) + a % 2;
      LowBitsMask(a / 2, k - 1);
      DivModStep(a, p);
    }
  }

  /** The two nametable masks of the mapper, as remainders. */
  lemma NametableMasks(a: nat)
    ensures BitAnd(a, 0x3FF) == a % 0x400
    ensures BitAnd(a, 0x7FF) == a % 0x800
  {
    assert Pow2(10) == 0x400 && Pow2(11) == 0x800;
    LowBitsMask(a, 10);
    LowBitsMask(a, 11);
  }

  /** What goes wrong where the C code would read outside its buffers or
      stop on its assert. */
  datatype Fault =
    | OutOfImage(index: int)       // the cartridge image has no byte at `index`
    | UnsupportedMirror(code: byte) // the header's mirroring bits are neither mode

  datatype Result<T> = Ok(value: T) | Err(fault: Fault)

  datatype Outcome = Pass | Fail(fault: Fault)
}

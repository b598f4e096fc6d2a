/** C fixed-width integer types and the unsigned 64-bit operators the flasher
    evaluates its tick expressions with. Unsigned C arithmetic wraps modulo
    2^64 and unsigned division truncates, which for non-negative operands is
    Dafny's `/`. */
module MachineInt {

  const U32_LIMIT: nat := 0x1_0000_0000
  const U64_LIMIT: nat := 0x1_0000_0000_0000_0000

  type u32 = x: int | 0 <= x < 0x1_0000_0000
  type u64 = x: int | 0 <= x < 0x1_0000_0000_0000_0000
  /** A C `int` on the RV64 target (32 bits). */
  type i32 = x: int | -0x8000_0000 <= x < 0x8000_0000

  /** `a * b` on `uint64_t`: the product reduced modulo 2^64. */
  function MulU64(a: u64, b: u64): (r: u64)
    ensures a * b < U64_LIMIT ==> r == a * b
    ensures (a * b - r) % U64_LIMIT == 0
  {
    // Equal to `a * b % U64_LIMIT`; the split keeps the solver from
    // reasoning about a nonlinear modulus when the product fits.
    var p: nat := a * b;
    if p < U64_LIMIT then p else p % U64_LIMIT
  }

  /** `a + b` on `uint64_t`. */
  function AddU64(a: u64, b: u64): (r: u64)
    ensures a + b < U64_LIMIT ==> r == a + b
    ensures a + b >= U64_LIMIT ==> r == a + b - U64_LIMIT
  {
    (a + b) % U64_LIMIT
  }

  /** Unsigned division truncates, so it never exceeds its dividend. */
  function DivU64(a: u64, b: u64): (r: u64)
    requires b != 0
    ensures r * b <= a < (r + 1) * b
  {
    a / b
  }

  /** Product bound used to show that a 32-bit by 32-bit product fits in 64 bits. */
  lemma MulBelow(a: nat, b: nat, n: nat)
    requires a < n && b < n
    ensures a * b < n * n
  {
    if a == 0 {
    } else {
      calc {
        a * b;
      <  { assert b < n; MulStrict(a, b, n); }
        a * n;
      <= { MulLe(a, n, n); }
        n * n;
      }
    }
  }

  lemma MulStrict(a: nat, b: nat, c: nat)
    requires a > 0 && b < c
    ensures a * b < a * c
  {
    assert a * c == a * b + a * (c - b);
  }

  lemma MulLe(a: nat, b: nat, c: nat)
    requires a <= b
    ensures a * c <= b * c
  {
    assert b * c == a * c + (b - a) * c;
  }
}

/** Swift's `Int` on a 64-bit platform: `+` and `*` trap on overflow instead of
    wrapping, and `/` truncates toward zero. */
module SwiftInt {

  const INT64_MIN: int := -0x8000_0000_0000_0000
  const INT64_MAX: int := 0x7fff_ffff_ffff_ffff

  predicate InRange(x: int) {
    INT64_MIN <= x <= INT64_MAX
  }

  type Int64 = x: int | InRange(x)

  /** The outcome of an expression that may trap at run time. */
  datatype Checked<+T> = Value(value: T) | Trap

  function Abs(x: int): nat {
    if x < 0 then -x else x
  }

  /** `a + b`: traps exactly when the mathematical sum leaves the 64-bit range. */
  function Add(a: Int64, b: Int64): (r: Checked<Int64>)
    ensures r.Value? <==> InRange(a + b)
    ensures r.Value? ==> r.value == a + b
  {
    if InRange(a + b) then Value(a + b) else Trap
  }

  /** `a * b`: traps exactly when the mathematical product leaves the 64-bit range. */
  function Mul(a: Int64, b: Int64): (r: Checked<Int64>)
    ensures r.Value? <==> InRange(a * b)
    ensures r.Value? ==> r.value == a * b
  {
    if InRange(a * b) then Value(a * b) else Trap
  }

  /** `a / b` on integers: the quotient rounded toward zero, so the remainder
      is smaller than the divisor and takes the sign of the dividend. Dafny's own
      `/` is Euclidean and differs for negative operands. The operands are
      unbounded, so the one trapping case of Swift's `/`, `Int.min / -1`, is
      not modelled; every division in the core has a positive divisor. */
  function TruncDiv(a: int, b: int): (q: int)
    requires b != 0
    ensures Abs(a - q * b) < Abs(b)
    ensures a - q * b == 0 || (a - q * b < 0 <==> a < 0)
    ensures Abs(q) <= Abs(a)
  {
    var m := Abs(a) / Abs(b);
    NatQuotient(Abs(a), Abs(b));
    SignedProduct(m, b);
    if (a < 0) == (b < 0) then m else -m
  }

  lemma NatQuotient(n: nat, d: nat)
    requires d > 0
    ensures 0 <= n - (n / d) * d < d
    ensures 0 <= n / d <= n
  {
    QuotientAtMost(n / d, d);
  }

  lemma QuotientAtMost(q: nat, d: nat)
    requires d > 0
    ensures q <= q * d
  {
  }

  lemma SignedProduct(m: int, b: int)
    ensures m * b == (if b < 0 then -(m * Abs(b)) else m * Abs(b))
    ensures -m * b == -(m * b)
  {
  }
}

/** Integer facts and 64-bit limits shared by the modules. */
module Arithmetic {
  const U64_MAX: nat := 0xFFFF_FFFF_FFFF_FFFF
  const TWO_64: nat := 0x1_0000_0000_0000_0000

  function AbsDiff(a: int, b: int): nat { if a >= b then a - b else b - a }

  function CeilDiv(a: nat, b: nat): nat
    requires b > 0
  {
    (a + (b - 1)) / b
  }

  lemma MulLe(a: int, b: int, c: nat)
    requires a <= b
    ensures a * c <= b * c
  {
  }

  lemma ModOnce(a: nat, n: nat)
    requires 0 < n && a < n + n
    ensures a % n == if a < n then a else a - n
  {
  }

  lemma DivUnique(a: nat, d: nat, q: nat, r: nat)
    requires d > 0 && a == q * d + r && r < d
    ensures a / d == q && a % d == r
  {
    if a / d < q {
      assert (a / d + 1) * d <= q * d by { MulLe(a / d + 1, q, d); }
    } else if a / d > q {
      assert (q + 1) * d <= a / d * d by { MulLe(q + 1, a / d, d); }
    }
  }

  lemma DivAtLeast(a: nat, d: nat, q: nat)
    requires d > 0
    ensures a / d >= q <==> a >= q * d
  {
    assert a / d * d + a % d == a;
    if a / d >= q { MulLe(q, a / d, d); }
    else { MulLe(a / d + 1, q, d); }
  }

  // CeilDiv(a, b) is the least number of steps of b that reach a.
  lemma CeilDivLeast(a: nat, b: nat, k: nat)
    requires b > 0
    ensures k * b >= a <==> k >= CeilDiv(a, b)
  {
    var c := CeilDiv(a, b);
    assert c * b + (a + (b - 1)) % b == a + (b - 1);
    if k >= c { MulLe(c, k, b); }
    else { MulLe(k + 1, c, b); }
  }

  lemma ByteReadsBack(n: nat)
    requires n < 256
    ensures (n as bv8) as nat == n % 256
  {
  }
}

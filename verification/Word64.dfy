/** Unsigned machine words: the wrapping 64-bit operations and when they are exact. */
module Word64 {

  const U32: nat := 0x1_0000_0000
  const U64: nat := 0x1_0000_0000_0000_0000

  function Add(a: nat, b: nat): nat { (a + b) % U64 }
  function Sub(a: nat, b: nat): nat { (a - b) % U64 }
  function Mul(a: nat, b: nat): nat { (a * b) % U64 }

  function Max(a: nat, b: nat): nat { if a < b then b else a }

  /** The product `n * k`, as a repeated sum. */
  function Times(n: nat, k: nat): nat {
    if n == 0 then 0 else Times(n - 1, k) + k
  }

  lemma {:induction false} TimesIsProduct(n: nat, k: nat)
    ensures Times(n, k) == n * k
  {
    if n > 0 { TimesIsProduct(n - 1, k); }
  }

  lemma AddExact(a: nat, b: nat)
    requires a + b < U64
    ensures Add(a, b) == a + b
  {
  }

  lemma SubExact(a: nat, b: nat)
    requires b <= a < U64
    ensures Sub(a, b) == a - b
  {
  }
}

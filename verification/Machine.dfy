/** The program's 64-bit integers. */
module Machine {

  const TWO_63: int := 0x8000_0000_0000_0000
  const TWO_64: int := 0x1_0000_0000_0000_0000

  /** uint64 addition. */
  function Plus64(a: nat, b: nat): nat {
    (a + b) % TWO_64
  }

  /** int64(uint64). */
  function ToInt64(n: nat): int {
    if n % TWO_64 < TWO_63 then n % TWO_64 else n % TWO_64 - TWO_64
  }

  /** Sums may be reduced at any time. */
  lemma AddModulo(a: nat, b: nat, more: nat)
    requires a % TWO_64 == b % TWO_64
    ensures Plus64(a, more) == Plus64(b, more) && Plus64(a % TWO_64, more) == Plus64(a, more)
    ensures Plus64(a, more) % TWO_64 == Plus64(a, more)
  {
  }
}

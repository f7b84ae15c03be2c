/** Arithmetic shared by the backoff and budget models. */
module Numbers {
  /** One more than the largest 64-bit number. */
  const WORD: nat := 0x1_0000_0000_0000_0000

  function Min(a: int, b: int): int {
    if a <= b then a else b
  }

  function Power(m: nat, k: nat): (r: nat)
    ensures m >= 1 ==> r >= 1
  {
    if k == 0 then 1 else m * Power(m, k - 1)
  }
}

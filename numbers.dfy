/** Integer helpers shared by the list-prefix and clamping code. */
module Numbers {
  function Min(a: int, b: int): int { if a <= b then a else b }
  function Max(a: int, b: int): int { if a >= b then a else b }
}

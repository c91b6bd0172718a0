/** Integer minimum and maximum, shared by the city composer and the score arithmetic. */
module Numbers {

  function Min(a: int, b: int): int { if a <= b then a else b }
  function Max(a: int, b: int): int { if a >= b then a else b }

}

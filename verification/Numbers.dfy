/** Small arithmetic shared by the models. */
module Numbers {
  type U32 = n: nat | n < 0x1_0000_0000

  function Min(a: nat, b: nat): nat { if a < b then a else b }

  function Max(a: nat, b: nat): nat { if a > b then a else b }
}

/** Go's int32: the values that fit, and what arithmetic makes of the others. */
module Int32 {

  const MIN32 := -0x8000_0000
  const MAX32 := 0x7FFF_FFFF

  function Wrap32(x: int): (z: int)
    ensures MIN32 <= z <= MAX32
    ensures MIN32 <= x <= MAX32 ==> z == x
  {
    (x + 0x8000_0000) % 0x1_0000_0000 - 0x8000_0000
  }

  lemma WrapStep(n: int)
    ensures Wrap32(Wrap32(n) + 1) == Wrap32(n + 1)
  {
  }

  /** Fewer than 2^32 apart, numbers stay apart; 2^32 apart they become one. */
  lemma WrapsApart(i: int, j: int)
    requires i < j
    ensures j - i < 0x1_0000_0000 ==> Wrap32(i) != Wrap32(j)
    ensures j - i == 0x1_0000_0000 ==> Wrap32(i) == Wrap32(j)
  {
  }
}

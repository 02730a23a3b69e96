/** The 8-bit word of an octet, built bit by bit, and back. */
module OctetBits {
  import opened Bytes

  lemma Double(x: bv8)
    requires x < 128
    ensures (x << 1) as int == 2 * (x as int)
    ensures ((x << 1) | 1) as int == 2 * (x as int) + 1
  {}

  lemma HalfRange(x: bv8)
    requires x as int < 128
    ensures x < 128
  {}

  lemma WordValueInjective(x: bv8, y: bv8)
    requires x as int == y as int
    ensures x == y
  {}

  function Word(b: byte): (w: bv8)
    ensures w as int == b
  {
    if b == 0 then 0
    else
      var half := Word(b / 2);
      HalfRange(half);
      Double(half);
      if b % 2 == 0 then half << 1 else (half << 1) | 1
  }
}

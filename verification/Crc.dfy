/**
  The two checksums of the upgrade protocol.

  CRC-8 (reflected polynomial 0x8C, initial value 0xFF) seals a frame and CRC-16/XMODEM
  (polynomial 0x1021, initial value 0) seals a data block. Both are specified bit by bit; the
  table-driven and the shift-loop programs are proved to compute them, and both are proved to
  detect every short burst whatever the length of the message.
*/
module Crc {
  import opened Bytes
  import opened OctetBits

  // ---------- bit-serial specification ----------

  /** One shift of the reflected CRC-8 register. */
  function Shift8(x: bv8): bv8 {
    if x & 1 == 1 then (x >> 1) ^ 0x8C else x >> 1
  }

  /** One shift of the CRC-16/XMODEM register. */
  function Shift16(x: bv16): bv16 {
    if x & 0x8000 != 0 then (x << 1) ^ 0x1021 else x << 1
  }

  function Iterate<T>(f: T -> T, x: T, n: nat): T
    decreases n, x
  {
    if n == 0 then x else f(Iterate(f, x, n - 1))
  }

  /** Eight shifts: one octet of message. */
  function Octet<T>(f: T -> T, x: T): T {
    Iterate(f, x, 8)
  }

  /** The octet enters the high half of the 16-bit register. */
  function High(x: bv16): bv16 {
    x << 8
  }

  function Xor(x: bv16, y: bv16): bv16 {
    x ^ y
  }

  function Absorb8(c: bv8, b: bv8): bv8 {
    Octet(Shift8, c ^ b)
  }

  function Absorb16(c: bv16, b: bv16): bv16 {
    Octet(Shift16, Xor(c, High(b)))
  }

  function Register8(s: seq<bv8>): bv8 {
    if s == [] then 0xFF else Absorb8(Register8(s[..|s| - 1]), s[|s| - 1])
  }

  function Register16(s: seq<bv16>): bv16 {
    if s == [] then 0 else Absorb16(Register16(s[..|s| - 1]), s[|s| - 1])
  }

  function Octets(s: seq<byte>): (r: seq<bv8>)
    ensures |r| == |s|
    ensures forall i :: 0 <= i < |s| ==> r[i] == Word(s[i])
  {
    seq(|s|, i requires 0 <= i < |s| => Word(s[i]))
  }

  function Widen(b: bv8): (r: bv16)
    ensures r < 256
  {
    b as bv16
  }

  function Wide(s: seq<bv8>): (r: seq<bv16>)
    ensures |r| == |s|
    ensures forall i :: 0 <= i < |s| ==> r[i] == Widen(s[i])
  {
    seq(|s|, i requires 0 <= i < |s| => Widen(s[i]))
  }

  function Crc8(s: seq<byte>): byte {
    Register8(Octets(s)) as int
  }

  function LowOctet(r: bv16): bv8 {
    (r & 0xFF) as bv8
  }

  function HighOctet(r: bv16): bv8 {
    (r >> 8) as bv8
  }

  function Crc16(s: seq<byte>): (r: nat)
    ensures r < 65536
  {
    var r := Register16(Wide(Octets(s)));
    LowOctet(r) as int + 256 * (HighOctet(r) as int)
  }

  // ---------- iterated steps ----------

  ghost predicate Injective<T(!new)>(f: T -> T) {
    forall x, y :: f(x) == f(y) ==> x == y
  }

  ghost predicate Linear(f: bv16 -> bv16) {
    forall x, y :: f(Xor(x, y)) == Xor(f(x), f(y))
  }

  lemma {:induction false} IterateInjective<T(!new)>(f: T -> T, x: T, y: T, n: nat)
    requires Injective(f)
    requires Iterate(f, x, n) == Iterate(f, y, n)
    ensures x == y
  {
    if n > 0 {
      IterateInjective(f, x, y, n - 1);
    }
  }

  lemma {:induction false} IterateLinear(f: bv16 -> bv16, x: bv16, y: bv16, n: nat)
    requires Linear(f)
    ensures Iterate(f, Xor(x, y), n) == Xor(Iterate(f, x, n), Iterate(f, y, n))
  {
    if n > 0 {
      IterateLinear(f, x, y, n - 1);
    }
  }

  // ---------- one shift is a bijection, and CRC-16 is linear over exclusive or ----------

  lemma Shift8Injective(x: bv8, y: bv8)
    requires Shift8(x) == Shift8(y)
    ensures x == y
  {}

  /** The inverse of Shift16: the polynomial's low bit tells which branch was taken. */
  function Unshift16(y: bv16): bv16 {
    if y & 1 == 1 then ((y ^ 0x1021) >> 1) | 0x8000 else y >> 1
  }

  lemma TopClear(x: bv16)
    requires x & 0x8000 == 0
    ensures (x << 1) & 1 == 0 && (x << 1) >> 1 == x
  {}

  lemma TopSet(x: bv16)
    requires x & 0x8000 != 0
    ensures ((x << 1) ^ 0x1021) & 1 == 1
    ensures ((((x << 1) ^ 0x1021) ^ 0x1021) >> 1) | 0x8000 == x
  {}

  lemma UnshiftShift16(x: bv16)
    ensures Unshift16(Shift16(x)) == x
  {
    if x & 0x8000 == 0 {
      TopClear(x);
      assert Shift16(x) == x << 1;
    } else {
      TopSet(x);
      assert Shift16(x) == (x << 1) ^ 0x1021;
    }
  }

  lemma Xor16(x: bv16, y: bv16)
    ensures (x ^ y) << 1 == (x << 1) ^ (y << 1)
    ensures (x ^ y) & 0x8000 == (x & 0x8000) ^ (y & 0x8000)
    ensures x & 0x8000 == 0 || x & 0x8000 == 0x8000
    ensures y & 0x8000 == 0 || y & 0x8000 == 0x8000
  {}

  lemma XorBoth(a: bv16, b: bv16)
    ensures (a ^ 0x1021) ^ (b ^ 0x1021) == a ^ b
  {}

  lemma XorOne(a: bv16, b: bv16)
    ensures (a ^ 0x1021) ^ b == (a ^ b) ^ 0x1021
    ensures a ^ (b ^ 0x1021) == (a ^ b) ^ 0x1021
  {}

  lemma Shift16Linear(x: bv16, y: bv16)
    ensures Shift16(x ^ y) == Shift16(x) ^ Shift16(y)
  {
    Xor16(x, y);
    XorBoth(x << 1, y << 1);
    XorOne(x << 1, y << 1);
  }

  lemma OctetInjective<T(!new)>(f: T -> T, x: T, y: T)
    requires Injective(f)
    requires Octet(f, x) == Octet(f, y)
    ensures x == y
  {
    IterateInjective(f, x, y, 8);
  }

  lemma OctetLinear(f: bv16 -> bv16, x: bv16, y: bv16)
    requires Linear(f)
    ensures Octet(f, Xor(x, y)) == Xor(Octet(f, x), Octet(f, y))
  {
    IterateLinear(f, x, y, 8);
  }

  lemma Shift8IsInjective()
    ensures Injective(Shift8)
  {
    forall x, y | Shift8(x) == Shift8(y) ensures x == y {
      Shift8Injective(x, y);
    }
  }

  lemma Shift16IsInjective()
    ensures Injective(Shift16)
  {
    forall x, y | Shift16(x) == Shift16(y) ensures x == y {
      UnshiftShift16(x);
      UnshiftShift16(y);
    }
  }

  lemma Shift16IsLinear()
    ensures Linear(Shift16)
  {
    forall x, y ensures Shift16(Xor(x, y)) == Xor(Shift16(x), Shift16(y)) {
      Shift16Linear(x, y);
    }
  }

  // ---------- error detection, at any length ----------

  lemma Xor8Cancel(c: bv8, x: bv8, y: bv8)
    requires c ^ x == c ^ y || x ^ c == y ^ c
    ensures x == y
  {}

  lemma Absorb8SameRegister(c: bv8, a: bv8, b: bv8)
    requires Absorb8(c, a) == Absorb8(c, b)
    ensures a == b
  {
    Shift8IsInjective();
    OctetInjective(Shift8, c ^ a, c ^ b);
    Xor8Cancel(c, a, b);
  }

  lemma Absorb8SameOctet(c: bv8, d: bv8, a: bv8)
    requires Absorb8(c, a) == Absorb8(d, a)
    ensures c == d
  {
    Shift8IsInjective();
    OctetInjective(Shift8, c ^ a, d ^ a);
    Xor8Cancel(a, c, d);
  }

  lemma {:induction false} Register8Detects(s: seq<bv8>, t: seq<bv8>, k: nat)
    requires |s| == |t| && k < |s|
    requires s[k] != t[k]
    requires forall i :: 0 <= i < |s| && i != k ==> s[i] == t[i]
    ensures Register8(s) != Register8(t)
  {
    var n := |s| - 1;
    if Register8(s) == Register8(t) {
      if k == n {
        assert s[..n] == t[..n];
        Absorb8SameRegister(Register8(s[..n]), s[n], t[n]);
      } else {
        Register8Detects(s[..n], t[..n], k);
        Absorb8SameOctet(Register8(s[..n]), Register8(t[..n]), s[n]);
      }
    }
  }

  lemma Xor16Cancel(c: bv16, x: bv16, y: bv16)
    requires Xor(x, c) == Xor(y, c)
    ensures x == y
  {}

  lemma AbsorbInjective(f: bv16 -> bv16, c: bv16, d: bv16, x: bv16)
    requires Injective(f)
    requires Octet(f, Xor(c, x)) == Octet(f, Xor(d, x))
    ensures c == d
  {
    OctetInjective(f, Xor(c, x), Xor(d, x));
    Xor16Cancel(x, c, d);
  }

  lemma Absorb16Injective(c: bv16, d: bv16, b: bv16)
    requires Absorb16(c, b) == Absorb16(d, b)
    ensures c == d
  {
    Shift16IsInjective();
    AbsorbInjective(Shift16, c, d, High(b));
  }

  /** Shifting back an octet that sits in the high half of the register never meets the polynomial. */
  lemma HighOctetUnshifts(z: bv16)
    requires z < 256
    ensures Unshift16(z << 8) == z << 7 && Unshift16(z << 7) == z << 6
    ensures Unshift16(z << 6) == z << 5 && Unshift16(z << 5) == z << 4
    ensures Unshift16(z << 4) == z << 3 && Unshift16(z << 3) == z << 2
    ensures Unshift16(z << 2) == z << 1 && Unshift16(z << 1) == z
  {}

  lemma {:induction false} IterateInverse<T(!new)>(f: T -> T, g: T -> T, x: T, y: T, n: nat)
    requires forall x :: g(f(x)) == x
    requires Iterate(f, x, n) == y
    ensures Iterate(g, y, n) == x
  {
    if n > 0 {
      var w := Iterate(f, x, n - 1);
      IterateInverse(f, g, x, w, n - 1);
      assert g(y) == w;
      IterateOuter(g, y, n);
    }
  }

  lemma {:induction false} IterateOuter<T>(g: T -> T, y: T, n: nat)
    requires n > 0
    ensures Iterate(g, y, n) == Iterate(g, g(y), n - 1)
  {
    if n > 1 {
      IterateOuter(g, y, n - 1);
    }
  }

  lemma Unshift16Inverts()
    ensures forall x :: Unshift16(Shift16(x)) == x
  {
    forall x ensures Unshift16(Shift16(x)) == x {
      UnshiftShift16(x);
    }
  }

  lemma ShiftsOntoHighOctet(x: bv16, z: bv16)
    requires z < 256
    requires Octet(Shift16, x) == High(z)
    ensures x == Octet(Unshift16, High(z))
  {
    Unshift16Inverts();
    IterateInverse(Shift16, Unshift16, x, High(z), 8);
  }

  lemma UnshiftChain(f: bv16 -> bv16, a: bv16, b: bv16, c: bv16, d: bv16, e: bv16)
    requires f(a) == b && f(b) == c && f(c) == d && f(d) == e
    ensures Iterate(f, a, 4) == e
  {
    assert Iterate(f, a, 1) == b;
    assert Iterate(f, a, 2) == c;
    assert Iterate(f, a, 3) == d;
  }

  lemma {:induction false} IterateTwice<T>(f: T -> T, x: T, m: nat, n: nat)
    ensures Iterate(f, x, m + n) == Iterate(f, Iterate(f, x, m), n)
  {
    if n > 0 {
      IterateTwice(f, x, m, n - 1);
    }
  }

  lemma HighOctetUnwinds(f: bv16 -> bv16, z: bv16)
    requires forall x :: f(x) == Unshift16(x)
    requires z < 256
    ensures Octet(f, High(z)) == z
  {
    HighOctetUnshifts(z);
    UnshiftChain(f, High(z), z << 7, z << 6, z << 5, z << 4);
    UnshiftChain(f, z << 4, z << 3, z << 2, z << 1, z);
    IterateTwice(f, High(z), 4, 4);
  }

  lemma HighXor(a: bv16, b: bv16, u: bv16, v: bv16)
    requires Xor(u, High(a)) == Xor(v, High(b))
    ensures Xor(u, v) == High(Xor(a, b))
  {}

  lemma XorMiddle(s: bv16, a: bv16, b: bv16)
    ensures Xor(Xor(s, High(a)), Xor(s, High(b))) == High(Xor(a, b))
  {}

  lemma HighIsNotLow(x: bv16, z: bv16)
    requires x < 256 && z < 256
    requires High(x) == z
    ensures x == 0 && z == 0
  {}

  lemma XorZero(a: bv16, b: bv16)
    requires Xor(a, b) == 0
    ensures a == b
  {}

  lemma XorSmall(a: bv16, b: bv16)
    requires a < 256 && b < 256
    ensures Xor(a, b) < 256
  {}

  lemma SecondOctet(f: bv16 -> bv16, u: bv16, v: bv16, b: bv16, d: bv16)
    requires Injective(f)
    requires Octet(f, Xor(u, High(b))) == Octet(f, Xor(v, High(d)))
    ensures Xor(u, v) == High(Xor(b, d))
  {
    OctetInjective(f, Xor(u, High(b)), Xor(v, High(d)));
    HighXor(b, d, u, v);
  }

  lemma FirstOctet(f: bv16 -> bv16, r: bv16, a: bv16, c: bv16)
    requires Linear(f)
    ensures Xor(Octet(f, Xor(r, High(a))), Octet(f, Xor(r, High(c)))) == Octet(f, High(Xor(a, c)))
  {
    OctetLinear(f, Xor(r, High(a)), Xor(r, High(c)));
    XorMiddle(r, a, c);
  }

  lemma DifferenceOfTwo(f: bv16 -> bv16, r: bv16, a: bv16, b: bv16, c: bv16, d: bv16, u: bv16, v: bv16)
    requires Injective(f) && Linear(f)
    requires u == Octet(f, Xor(r, High(a))) && v == Octet(f, Xor(r, High(c)))
    requires Octet(f, Xor(u, High(b))) == Octet(f, Xor(v, High(d)))
    ensures Octet(f, High(Xor(a, c))) == High(Xor(b, d))
  {
    SecondOctet(f, u, v, b, d);
    FirstOctet(f, r, a, c);
  }

  lemma SmallDifference(a: bv16, b: bv16, c: bv16, d: bv16)
    requires a < 256 && b < 256 && c < 256 && d < 256
    requires Octet(Shift16, High(Xor(a, c))) == High(Xor(b, d))
    ensures a == c && b == d
  {
    XorSmall(b, d);
    XorSmall(a, c);
    ShiftsOntoHighOctet(High(Xor(a, c)), Xor(b, d));
    HighOctetUnwinds(Unshift16, Xor(b, d));
    HighIsNotLow(Xor(a, c), Xor(b, d));
    XorZero(a, c);
    XorZero(b, d);
  }

  /** Two octets absorbed from the same register leave a register that determines both. */
  lemma TwoOctetsInjective(r: bv16, a: bv16, b: bv16, c: bv16, d: bv16)
    requires a < 256 && b < 256 && c < 256 && d < 256
    requires Absorb16(Absorb16(r, a), b) == Absorb16(Absorb16(r, c), d)
    ensures a == c && b == d
  {
    Shift16IsInjective();
    Shift16IsLinear();
    DifferenceOfTwo(Shift16, r, a, b, c, d, Absorb16(r, a), Absorb16(r, c));
    SmallDifference(a, b, c, d);
  }

  lemma RegisterOfTwo(s: seq<bv16>, k: nat)
    requires |s| == k + 2
    ensures Register16(s) == Absorb16(Absorb16(Register16(s[..k]), s[k]), s[k + 1])
  {
    assert s[..k + 1][..k] == s[..k];
  }

  lemma {:induction false} Register16Detects(s: seq<bv16>, t: seq<bv16>, k: nat)
    requires |s| == |t| && k < |s|
    requires forall i :: 0 <= i < |s| ==> s[i] < 256 && t[i] < 256
    requires s[k] != t[k] || (k + 1 < |s| && s[k + 1] != t[k + 1])
    requires forall i :: 0 <= i < |s| && i != k && i != k + 1 ==> s[i] == t[i]
    ensures Register16(s) != Register16(t)
  {
    var n := |s| - 1;
    if Register16(s) == Register16(t) {
      if n > k + 1 {
        Register16Detects(s[..n], t[..n], k);
        Absorb16Injective(Register16(s[..n]), Register16(t[..n]), s[n]);
      } else if n == k {
        LastOctet(s, t);
      } else {
        RegisterOfTwo(s, k);
        RegisterOfTwo(t, k);
        assert s[..k] == t[..k];
        TwoOctetsInjective(Register16(s[..k]), s[k], s[n], t[k], t[n]);
      }
    }
  }

  lemma LastOctet(s: seq<bv16>, t: seq<bv16>)
    requires |s| == |t| > 0
    requires s[|s| - 1] < 256 && t[|s| - 1] < 256
    requires s[..|s| - 1] == t[..|s| - 1] && s[|s| - 1] != t[|s| - 1]
    ensures Register16(s) != Register16(t)
  {
    var r, a, b := Register16(s[..|s| - 1]), s[|s| - 1], t[|s| - 1];
    if Register16(s) == Register16(t) {
      TwoOctetsInjective(r, a, 0, b, 0);
    }
  }

  lemma OctetsDiffer(s: seq<byte>, t: seq<byte>, i: nat)
    requires |s| == |t| && i < |s| && s[i] != t[i]
    ensures Octets(s)[i] != Octets(t)[i]
  {
    assert Word(s[i]) as int != Word(t[i]) as int;
  }

  lemma OctetsAgree(s: seq<byte>, t: seq<byte>, k: nat, m: nat)
    requires |s| == |t|
    requires forall i :: 0 <= i < |s| && i != k && i != m ==> s[i] == t[i]
    ensures forall i :: 0 <= i < |s| && i != k && i != m ==> Octets(s)[i] == Octets(t)[i]
  {}

  /** Equal-length messages that differ in exactly one octet, at any position, have different CRC-8. */
  lemma Crc8DetectsOneOctet(s: seq<byte>, t: seq<byte>, k: nat)
    requires |s| == |t| && k < |s|
    requires s[k] != t[k]
    requires forall i :: 0 <= i < |s| && i != k ==> s[i] == t[i]
    ensures Crc8(s) != Crc8(t)
  {
    OctetsDiffer(s, t, k);
    OctetsAgree(s, t, k, k);
    Register8Detects(Octets(s), Octets(t), k);
  }

  /** Equal-length messages that differ only within two adjacent octets have different CRC-16. */
  lemma Crc16DetectsTwoAdjacentOctets(s: seq<byte>, t: seq<byte>, k: nat)
    requires |s| == |t| && k < |s|
    requires s[k] != t[k] || (k + 1 < |s| && s[k + 1] != t[k + 1])
    requires forall i :: 0 <= i < |s| && i != k && i != k + 1 ==> s[i] == t[i]
    ensures Crc16(s) != Crc16(t)
  {
    OctetsDiffer(s, t, if s[k] != t[k] then k else k + 1);
    OctetsAgree(s, t, k, k + 1);
    WideDiffers(Octets(s), Octets(t), k);
    Register16Detects(Wide(Octets(s)), Wide(Octets(t)), k);
    if Crc16(s) == Crc16(t) {
      SplitInjective(Register16(Wide(Octets(s))), Register16(Wide(Octets(t))));
    }
  }

  lemma WideDiffers(s: seq<bv8>, t: seq<bv8>, k: nat)
    requires |s| == |t| && k < |s|
    requires s[k] != t[k] || (k + 1 < |s| && s[k + 1] != t[k + 1])
    requires forall i :: 0 <= i < |s| && i != k && i != k + 1 ==> s[i] == t[i]
    ensures Wide(s)[k] != Wide(t)[k] || (k + 1 < |s| && Wide(s)[k + 1] != Wide(t)[k + 1])
    ensures forall i :: 0 <= i < |s| && i != k && i != k + 1 ==> Wide(s)[i] == Wide(t)[i]
  {
    WidenInjective(s[k], t[k]);
    if k + 1 < |s| {
      WidenInjective(s[k + 1], t[k + 1]);
    }
  }

  lemma WidenInjective(a: bv8, b: bv8)
    ensures Widen(a) == Widen(b) ==> a == b
  {}

  lemma OctetsOfRegister(r: bv16, q: bv16)
    requires LowOctet(r) == LowOctet(q) && HighOctet(r) == HighOctet(q)
    ensures r == q
  {}

  lemma SplitInjective(r: bv16, q: bv16)
    requires LowOctet(r) as int + 256 * (HighOctet(r) as int) == LowOctet(q) as int + 256 * (HighOctet(q) as int)
    ensures r == q
  {
    WordValueInjective(LowOctet(r), LowOctet(q));
    WordValueInjective(HighOctet(r), HighOctet(q));
    OctetsOfRegister(r, q);
  }

  // ---------- the programs ----------

  method ShiftOnce8(x: bv8) returns (y: bv8)
    ensures y == Shift8(x)
  {
    y := if x & 1 == 1 then (x >> 1) ^ 0x8C else x >> 1;
  }

  method ShiftOnce16(x: bv16) returns (y: bv16)
    ensures y == Shift16(x)
  {
    y := if x & 0x8000 != 0 then (x << 1) ^ 0x1021 else x << 1;
  }

  method ShiftOctet8(start: bv8) returns (crc: bv8)
    ensures crc == Octet(Shift8, start)
  {
    crc := start;
    for n := 0 to 8
      invariant crc == Iterate(Shift8, start, n)
    {
      crc := ShiftOnce8(crc);
    }
  }

  method ShiftOctet16(start: bv16) returns (crc: bv16)
    ensures crc == Octet(Shift16, start)
  {
    crc := start;
    for n := 0 to 8
      invariant crc == Iterate(Shift16, start, n)
    {
      crc := ShiftOnce16(crc);
    }
  }

  ghost function TableEntry(i: byte): bv8 {
    Octet(Shift8, Word(i))
  }

  ghost predicate TablePrefix(table: seq<bv8>) {
    |table| <= 256 && forall i :: 0 <= i < |table| ==> table[i] == TableEntry(i)
  }

  ghost predicate IsCrc8Table(table: seq<bv8>) {
    TablePrefix(table) && |table| == 256
  }

  method ComputeEntry(i: byte) returns (crc: bv8)
    ensures crc == TableEntry(i)
  {
    crc := ShiftOctet8(Word(i));
  }

  method LookUp(table: seq<bv8>, index: bv8) returns (r: bv8)
    requires IsCrc8Table(table)
    ensures r == Octet(Shift8, index)
  {
    WordValueInjective(index, Word(index as int));
    r := table[index as int];
  }

  /** The host's table construction: eight conditional shifts for each of the 256 indices. */
  method BuildTable() returns (table: seq<bv8>)
    ensures IsCrc8Table(table)
  {
    table := [];
    for i := 0 to 256
      invariant |table| == i && TablePrefix(table)
    {
      var crc := ComputeEntry(i);
      table := table + [crc];
    }
  }

  lemma RegisterOfNext(s: seq<bv8>, i: nat)
    requires i < |s|
    ensures Register8(s[..i + 1]) == Absorb8(Register8(s[..i]), s[i])
  {
    assert s[..i + 1][..i] == s[..i];
  }

  /** The table-driven CRC-8 computes the bit-serial one. */
  method Crc8ByTable(table: seq<bv8>, data: seq<byte>) returns (crc: byte)
    requires IsCrc8Table(table)
    ensures crc == Crc8(data)
  {
    var r: bv8 := 0xFF;
    var octets := Octets(data);
    for i := 0 to |octets|
      invariant r == Register8(octets[..i])
    {
      RegisterOfNext(octets, i);
      r := LookUp(table, r ^ octets[i]);
    }
    assert octets[..|octets|] == octets;
    crc := r as int;
  }

  /** The shift loop over a data block computes CRC-16/XMODEM. */
  method Crc16ByShifts(data: seq<byte>) returns (crc: bv16)
    ensures crc == Register16(Wide(Octets(data)))
  {
    crc := 0;
    var octets := Wide(Octets(data));
    for i := 0 to |octets|
      invariant crc == Register16(octets[..i])
    {
      assert octets[..i + 1][..i] == octets[..i];
      crc := ShiftOctet16(Xor(crc, High(octets[i])));
    }
    assert octets[..|octets|] == octets;
  }

  /** The same value as the number carried in a DATA frame. */
  method BlockCrc(data: seq<byte>) returns (crc: nat)
    ensures crc == Crc16(data)
  {
    var r := Crc16ByShifts(data);
    crc := LowOctet(r) as int + 256 * (HighOctet(r) as int);
  }

  // ---------- the catalogue's check values ----------

  lemma EightShifts<T>(f: T -> T, x: T)
    ensures Octet(f, x) == f(f(f(f(f(f(f(f(x))))))))
  {
    assert Iterate(f, x, 1) == f(x);
    assert Iterate(f, x, 2) == f(f(x));
    assert Iterate(f, x, 3) == f(f(f(x)));
    assert Iterate(f, x, 4) == f(f(f(f(x))));
    assert Iterate(f, x, 5) == f(f(f(f(f(x)))));
    assert Iterate(f, x, 6) == f(f(f(f(f(f(x))))));
    assert Iterate(f, x, 7) == f(f(f(f(f(f(f(x)))))));
  }

  /** The digits 1 to 9, and the registers after each. */
  function Digits(): seq<bv8> {
    [0x31, 0x32, 0x33, 0x34, 0x35, 0x36, 0x37, 0x38, 0x39]
  }

  function Registers8(): seq<bv8> {
    [0xFF, 0xD5, 0x6A, 0x47, 0x1A, 0x62, 0xBA, 0x71, 0xDA, 0x0B]
  }

  function Registers16(): seq<bv16> {
    [0, 0x2672, 0x20B5, 0x9752, 0xD789, 0x546C, 0x20E4, 0x86D6, 0x9015, 0x31C3]
  }

  lemma Digit8(i: nat)
    requires i < 9
    ensures Absorb8(Registers8()[i], Digits()[i]) == Registers8()[i + 1]
  {
    EightShifts(Shift8, Registers8()[i] ^ Digits()[i]);
  }

  lemma Digit16(i: nat)
    requires i < 9
    ensures Absorb16(Registers16()[i], Widen(Digits()[i])) == Registers16()[i + 1]
  {
    EightShifts(Shift16, Xor(Registers16()[i], High(Widen(Digits()[i]))));
  }

  lemma {:induction false} DigitsRegister8(n: nat)
    requires n <= 9
    ensures Register8(Digits()[..n]) == Registers8()[n]
  {
    if n > 0 {
      DigitsRegister8(n - 1);
      Digit8(n - 1);
      RegisterOfNext(Digits(), n - 1);
    }
  }

  lemma {:induction false} DigitsRegister16(n: nat)
    requires n <= 9
    ensures Register16(Wide(Digits())[..n]) == Registers16()[n]
  {
    if n > 0 {
      DigitsRegister16(n - 1);
      Digit16(n - 1);
      assert Wide(Digits())[..n][..n - 1] == Wide(Digits())[..n - 1];
    }
  }

  lemma DigitOctets(s: seq<byte>)
    requires |s| == 9 && forall i :: 0 <= i < 9 ==> s[i] == 0x31 + i
    ensures Octets(s) == Digits()
  {
    forall i | 0 <= i < 9 ensures Octets(s)[i] == Digits()[i] {
      WordValueInjective(Octets(s)[i], Digits()[i]);
    }
  }

  /** The check values of the two codes: what the digits 1 to 9 seal to. */
  lemma CheckValues(s: seq<byte>)
    requires |s| == 9 && forall i :: 0 <= i < 9 ==> s[i] == 0x31 + i
    ensures Crc8(s) == 0x0B && Crc16(s) == 0x31C3
  {
    DigitOctets(s);
    DigitsRegister8(9);
    DigitsRegister16(9);
    assert Digits()[..9] == Digits() && Wide(Digits())[..9] == Wide(Digits());
  }
}

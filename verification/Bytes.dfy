/** Octets, fixed-width sums and little-endian fields shared by every layer of the upgrade pipeline. */
module Bytes {

  type byte = x: int | 0 <= x < 256

  type word32 = x: int | 0 <= x < 0x1_0000_0000

  datatype Option<+T> = None | Some(value: T)

  /** Exact sum of the octets of s. */
  function Sum(s: seq<byte>): nat {
    if s == [] then 0 else Sum(s[..|s| - 1]) + s[|s| - 1] as int
  }

  /** uint32_t arithmetic wraps modulo 2^32. */
  function Wrap32(x: nat): (r: nat)
    ensures 0 <= r < 0x1_0000_0000
  {
    if x < 0x1_0000_0000 then x else Wrap32(x - 0x1_0000_0000)
  }

  lemma {:induction false} Wrap32IsModulo(x: nat)
    ensures Wrap32(x) == x % 0x1_0000_0000
  {
    if x >= 0x1_0000_0000 {
      Wrap32IsModulo(x - 0x1_0000_0000);
    }
  }

  /** uint16_t increment. */
  function Next16(x: nat): nat {
    if x == 65535 then 0 else x + 1
  }

  /** The 32-bit additive checksum of an image. */
  function Sum32(s: seq<byte>): nat {
    Wrap32(Sum(s))
  }

  lemma {:induction false} SumAppend(s: seq<byte>, t: seq<byte>)
    ensures Sum(s + t) == Sum(s) + Sum(t)
  {
    if t == [] {
      assert s + t == s;
    } else {
      var n := |t| - 1;
      assert (s + t)[..|s + t| - 1] == s + t[..n];
      SumAppend(s, t[..n]);
    }
  }

  lemma WrapAdd(x: nat, y: nat)
    ensures Wrap32(Wrap32(x) + y) == Wrap32(x + y)
  {
    Wrap32IsModulo(x);
    Wrap32IsModulo(x + y);
    Wrap32IsModulo(Wrap32(x) + y);
  }

  lemma WrapShift(stale: nat, x: nat)
    ensures Wrap32(stale + x) == Wrap32(x) <==> Wrap32(stale) == 0
  {
    Wrap32IsModulo(stale);
    Wrap32IsModulo(x);
    Wrap32IsModulo(stale + x);
  }

  function LE16(s: seq<byte>): nat
    requires |s| == 2
  {
    s[0] as int + 256 * (s[1] as int)
  }

  function LE32(s: seq<byte>): nat
    requires |s| == 4
  {
    LE16(s[..2]) + 65536 * LE16(s[2..])
  }

  /** The little-endian field of four octets at i. */
  function Word32(s: seq<byte>, i: nat): nat
    requires i + 4 <= |s|
  {
    s[i] as int + 0x100 * s[i + 1] as int + 0x1_0000 * s[i + 2] as int + 0x100_0000 * s[i + 3] as int
  }

  function ToLE16(x: nat): (r: seq<byte>)
    requires x < 65536
    ensures |r| == 2 && LE16(r) == x
  {
    [x % 256, x / 256]
  }

  function ToLE32(x: nat): (r: seq<byte>)
    requires x < 0x1_0000_0000
    ensures |r| == 4 && LE32(r) == x
  {
    var lo, hi := ToLE16(x % 65536), ToLE16(x / 65536);
    assert (lo + hi)[..2] == lo && (lo + hi)[2..] == hi;
    lo + hi
  }

  lemma SplitLast<T>(s: seq<T>, t: seq<T>)
    requires t != []
    ensures t[..|t| - 1] + [t[|t| - 1]] == t
    ensures s + t[..|t| - 1] + [t[|t| - 1]] == s + t
  {}

  lemma SplitAt<T>(s: seq<T>, k: nat)
    requires k < |s|
    ensures s[..k] + [s[k]] == s[..k + 1]
    ensures s[..k + 1][..k] == s[..k]
    ensures s[..|s|] == s
  {}
}

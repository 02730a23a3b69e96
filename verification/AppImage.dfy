/** The two application slots, and what makes an octet string a bootable application. */
module AppImage {
  import opened Bytes

  const APP_SIZE: nat := 0x18000
  const APP_ADDR: nat := 0x0800_8000
  const APP_END: nat := 0x0802_0000
  const RAM_START: nat := 0x2000_0000
  const RAM_END: nat := 0x2000_C000

  /** An erased slot. */
  function BlankSlot(): (s: seq<byte>)
    ensures |s| == APP_SIZE && forall i :: 0 <= i < APP_SIZE ==> s[i] == 0xFF
  {
    seq(APP_SIZE, _ => 0xFF)
  }

  /** The slot with its cells from lo to hi taken from another content. */
  function Patch(slot: seq<byte>, lo: nat, hi: nat, with: seq<byte>): (r: seq<byte>)
    requires lo <= hi <= |slot| == |with|
    ensures |r| == |slot|
  {
    slot[..lo] + with[lo..hi] + slot[hi..]
  }

  /** The vector table's initial stack pointer lies in RAM, its reset vector is a Thumb address inside slot A. */
  predicate VectorSane(slot: seq<byte>) {
    |slot| >= 8 &&
    var sp, pc := LE32(slot[..4]), LE32(slot[4..8]);
    RAM_START <= sp <= RAM_END && pc % 2 == 1 && APP_ADDR <= pc < APP_END
  }

  /** The two vectors, octet by octet. */
  lemma SaneVectors(slot: seq<byte>)
    ensures VectorSane(slot) <==>
              && |slot| >= 8
              && 0x2000_0000 <= Word32(slot, 0) <= 0x2000_C000
              && Word32(slot, 4) % 2 == 1 && 0x0800_8000 <= Word32(slot, 4) < 0x0802_0000
  {
    if |slot| >= 8 {
      assert LE32(slot[..4]) == Word32(slot, 0);
      assert LE32(slot[4..8]) == Word32(slot, 4);
    }
  }

  /** The host's check before sending. */
  method CheckAppImage(data: seq<byte>) returns (ok: bool)
    ensures ok <==> |data| >= 16 && VectorSane(data)
  {
    if |data| < 16 {
      return false;
    }
    var sp, pc := LE32(data[..4]), LE32(data[4..8]);
    if !(RAM_START <= sp <= RAM_END) {
      return false;
    }
    ok := pc % 2 == 1 && APP_ADDR <= pc && pc < APP_END;
  }

  /** An image's vector table is the slot's once the image is in the slot. */
  lemma SaneInSlot(slot: seq<byte>, image: seq<byte>)
    requires 16 <= |image| <= |slot| && slot[..|image|] == image
    ensures VectorSane(slot) <==> VectorSane(image)
  {
    assert slot[..4] == image[..4];
    assert slot[4..8] == image[4..8];
  }
}

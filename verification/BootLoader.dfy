/**
  The boot loader's and the application's programs over the two flash slots and the metadata cache.
  Every method is proved to be the step of the same name in module Boot, for every power cut.
*/
module BootLoaders {
  import opened Bytes
  import opened AppImage
  import opened Spec = Boot

  class Flash {
    const a: array<byte>
    const b: array<byte>
    const cut: Cut
    var record: Option<Meta>
    var ops: nat
    var on: bool

    ghost predicate Valid()
      reads this
    {
      a.Length == b.Length == |cut.noise| == APP_SIZE && a != b
    }

    ghost function Abs(): (m: Machine)
      reads this, a, b
      ensures Valid() ==> Sized(m, cut)
    {
      Machine(Nvm(a[..], b[..], record), ops, on)
    }

    constructor (slotA: array<byte>, slotB: array<byte>, meta: Option<Meta>, power: nat, supply: Cut)
      requires slotA.Length == slotB.Length == |supply.noise| == APP_SIZE && slotA != slotB
      ensures Valid() && a == slotA && b == slotB && cut == supply
      ensures Abs() == Machine(Nvm(slotA[..], slotB[..], meta), power, true)
    {
      a, b, cut, record, ops, on := slotA, slotB, supply, meta, power, true;
    }

    method HalErase()
      requires Valid()
      modifies this`ops, this`on, a
      ensures Abs() == Spec.EraseA(old(Abs()), cut)
    {
      if !on {
        return;
      }
      for i := 0 to a.Length
        modifies a
        invariant forall k :: 0 <= k < i ==> a[k] == if ops == 0 then cut.noise[k] else 0xFF
      {
        a[i] := if ops == 0 then cut.noise[i] else 0xFF;
      }
      if ops == 0 {
        on := false;
        assert a[..] == cut.noise;
      } else {
        ops := ops - 1;
        assert a[..] == BlankSlot();
      }
    }

    method ErasedBetween(lo: nat, hi: nat) returns (blank: bool)
      requires Valid() && lo <= hi <= APP_SIZE
      ensures blank == BlankIn(a[..], lo, hi)
    {
      var i := lo;
      while i < hi && a[i] == 0xFF
        invariant lo <= i <= hi && forall k :: lo <= k < i ==> a[k] == 0xFF
      {
        i := i + 1;
      }
      blank := i == hi;
      assert !blank ==> a[..][i] != 0xFF;
    }

    method Fill(lo: nat, hi: nat, with: seq<byte>)
      requires Valid() && lo <= hi <= APP_SIZE == |with|
      modifies a
      ensures a[..] == Patch(old(a[..]), lo, hi, with)
    {
      for i := lo to hi
        modifies a
        invariant forall k :: lo <= k < i ==> a[k] == with[k]
        invariant forall k :: 0 <= k < lo || i <= k < a.Length ==> a[k] == old(a[k])
      {
        a[i] := with[i];
      }
      assert a[..] == old(a[..])[..lo] + with[lo..hi] + old(a[..])[hi..];
    }

    method HalCopy(lo: nat, hi: nat) returns (ok: bool)
      requires Valid() && lo <= hi <= APP_SIZE
      modifies this`ops, this`on, a
      ensures Written(Abs(), ok) == CopyChunk(old(Abs()), lo, hi, cut)
    {
      if !on {
        return false;
      }
      var blank := ErasedBetween(lo, hi);
      ok := ops > 0 && blank;
      Fill(lo, hi, if ok then b[..] else cut.noise);
      if ops == 0 {
        on := false;
      } else {
        ops := ops - 1;
      }
    }

    /** The metadata record is replaced as a whole. */
    method SaveRecord(meta: Meta)
      modifies this`ops, this`on, this`record
      ensures Abs() == Spec.Save(old(Abs()), meta, cut)
    {
      if !on {
        return;
      }
      if ops > 0 || cut.landed {
        record := Some(meta);
      }
      if ops == 0 {
        on := false;
      } else {
        ops := ops - 1;
      }
    }

    /** Whatever the caller passes, the count of starts stays the recorded one. */
    method WriteMetadata(meta: Meta)
      requires record.Some?
      modifies this`ops, this`on, this`record
      ensures Abs() == Spec.Save(old(Abs()), meta.(boots := old(record).value.boots), cut)
      ensures record.Some? && record.value.boots == old(record).value.boots
    {
      SaveRecord(meta.(boots := record.value.boots));
    }

    /** Erase A, then copy B chunk by chunk. */
    method PromoteToA(size: nat) returns (ok: bool)
      requires Valid()
      modifies this`ops, this`on, a
      ensures Written(Abs(), ok) == Spec.Promote(old(Abs()), size, cut)
    {
      if size == 0 || size > APP_SIZE {
        return false;
      }
      HalErase();
      if !on {
        return false;
      }
      ghost var erased := Abs();
      var off := 0;
      while off < size
        invariant Valid()
        invariant CopyFrom(erased, 0, size, cut) == CopyFrom(Abs(), off, size, cut)
        decreases size - off
      {
        ok := HalCopy(off, ChunkEnd(off, size));
        if !ok {
          return;
        }
        off := off + CHUNK;
      }
      ok := true;
    }

    /** Initialisation: count the start, creating the record on a blank chip. */
    method Init()
      modifies this`ops, this`on, this`record
      ensures Abs() == CountBoot(old(Abs()), cut)
    {
      var meta := if record.Some? then record.value else Meta(true, 0, 0, 0, 0, 0, 0);
      SaveRecord(meta.(boots := meta.boots + 1));
    }
  }

  method SumOf(slot: array<byte>, size: nat) returns (sum: nat)
    requires size <= slot.Length
    ensures sum == Sum32(slot[..][..size])
  {
    sum := 0;
    ghost var s := slot[..];
    assert s[..0] == [];
    for i := 0 to size
      invariant sum == Sum32(s[..i])
    {
      SplitAt(s, i);
      WrapAdd(Sum(s[..i]), slot[i] as int);
      sum := Wrap32(sum + slot[i] as int);
    }
  }

  class BootTask {
    const flash: Flash
    var sMeta: Meta

    /** The cached record is the one in the memory. */
    ghost predicate Ready()
      reads this, flash
    {
      flash.Valid() && flash.record == Some(sMeta)
    }

    constructor (device: Flash)
      requires device.Valid()
      ensures flash == device
    {
      flash := device;
      sMeta := Meta(false, 0, 0, 0, 0, 0, 0);
    }

    method SumMatches(slot: array<byte>) returns (ok: bool)
      requires sMeta.fwSize <= slot.Length
      ensures ok == (Sum32(slot[..][..sMeta.fwSize]) == sMeta.fwSum)
    {
      var sum := SumOf(slot, sMeta.fwSize);
      ok := sum == sMeta.fwSum;
    }

    method BootAppOk() returns (ok: bool)
      requires Ready()
      ensures ok == AppOk(flash.Abs().nvm)
    {
      if sMeta.fwSize < 16 || sMeta.fwSize > APP_SIZE {
        return false;
      }
      ok := SumMatches(flash.a);
      if ok {
        ok := VectorSane(flash.a[..]);
      }
    }

    method BootBackupMatchesMeta() returns (ok: bool)
      requires Ready()
      ensures ok == BackupMatches(flash.Abs().nvm)
    {
      if sMeta.fwSize < 16 || sMeta.fwSize > APP_SIZE {
        return false;
      }
      ok := SumMatches(flash.b);
    }

    method WriteFlag(flag: byte)
      requires Ready()
      modifies this, flash`ops, flash`on, flash`record
      ensures sMeta == old(sMeta).(flag := flag)
      ensures flash.Abs() == Spec.Save(old(flash.Abs()), sMeta, flash.cut)
      ensures flash.on ==> Ready()
    {
      sMeta := sMeta.(flag := flag);
      flash.WriteMetadata(sMeta);
    }

    method TryBootApp() returns (outcome: Outcome)
      requires flash.Valid() && flash.on
      modifies this, flash, flash.a
      ensures Booted(flash.Abs(), outcome) == Spec.TryBoot(old(flash.Abs()), flash.cut)
    {
      flash.Init();
      if !flash.on {
        return Dead;
      }
      sMeta := flash.record.value;
      if !sMeta.magic {
        return Loader;
      }
      if sMeta.flag == 2 {
        outcome := ResumeCommit();
      } else {
        outcome := ChooseImage();
      }
    }

    method ResumeCommit() returns (outcome: Outcome)
      requires Ready() && flash.on && sMeta.flag == 2
      modifies this, flash, flash.a
      ensures Booted(flash.Abs(), outcome) == Spec.Resume(old(flash.Abs()), flash.cut)
    {
      var matches := BootBackupMatchesMeta();
      if matches {
        ghost var m := flash.Abs();
        PromotionKeepsShape(m, sMeta.fwSize, flash.cut);
        var ok := flash.PromoteToA(sMeta.fwSize);
        if ok {
          WriteFlag(0);
          return if flash.on then Restart else Dead;
        }
      }
      WriteFlag(0);
      if !flash.on {
        return Dead;
      }
      outcome := ChooseImage();
    }

    method ChooseImage() returns (outcome: Outcome)
      requires Ready() && flash.on
      modifies this, flash, flash.a
      ensures Booted(flash.Abs(), outcome) == Spec.Choose(old(flash.Abs()), flash.cut)
    {
      if sMeta.flag == 1 {
        return Loader;
      }
      var good := BootAppOk();
      if good {
        return Jump;
      }
      var matches := BootBackupMatchesMeta();
      if !matches {
        return Loader;
      }
      outcome := RebuildA();
    }

    method RebuildA() returns (outcome: Outcome)
      requires Ready() && flash.on
      modifies this, flash, flash.a
      ensures Booted(flash.Abs(), outcome) == Spec.Rebuild(old(flash.Abs()), flash.cut)
    {
      PromotionKeepsShape(flash.Abs(), sMeta.fwSize, flash.cut);
      var ok := flash.PromoteToA(sMeta.fwSize);
      if ok {
        WriteFlag(0);
      }
      if !flash.on {
        return Dead;
      }
      if ok {
        var good := BootAppOk();
        if good {
          return Jump;
        }
      }
      outcome := Loader;
    }

    // ---------- download mode ----------

    method EnterDownload()
      requires Ready()
      modifies this, flash`ops, flash`on, flash`record
      ensures flash.Abs() == EnterLoader(old(flash.Abs()), flash.cut)
      ensures flash.on ==> Ready()
    {
      WriteFlag(1);
    }

    method OnAbort() returns (outcome: Outcome)
      requires Ready()
      modifies this, flash`ops, flash`on, flash`record
      ensures Booted(flash.Abs(), outcome) == BootAbort(old(flash.Abs()), flash.cut)
    {
      WriteFlag(0);
      outcome := if flash.on then Restart else Dead;
    }

    method OnId(id: byte)
      requires Ready()
      modifies this, flash`ops, flash`on, flash`record
      ensures flash.Abs() == BootId(old(flash.Abs()), id, flash.cut)
      ensures flash.on ==> Ready()
    {
      sMeta := sMeta.(id := id);
      flash.WriteMetadata(sMeta);
    }

    method OnCommit(size: nat, sum: nat) returns (outcome: Outcome)
      requires Ready()
      modifies this, flash, flash.a
      ensures Booted(flash.Abs(), outcome) == BootCommit(old(flash.Abs()), size, sum, flash.cut)
    {
      if size < 16 || size > APP_SIZE {
        outcome := OnAbort();
        return;
      }
      sMeta := sMeta.(flag := 2, version := Next16(sMeta.version), fwSize := size, fwSum := sum);
      flash.WriteMetadata(sMeta);
      ghost var c := flash.Abs();
      PromotionKeepsShape(c, size, flash.cut);
      if !flash.on {
        DeadStays(c, size, flash.cut);
        return Dead;
      }
      var ok := flash.PromoteToA(size);
      outcome := OnAbort();
    }
  }

  /** The application's commit: record the image and keep running. */
  method CommitInApp(flash: Flash, id: byte, size: nat, sum: nat)
    requires flash.Valid() && flash.record.Some?
    modifies flash`ops, flash`on, flash`record
    ensures flash.Abs() == AppCommit(old(flash.Abs()), size, sum, id, flash.cut)
  {
    var meta := flash.record.value;
    flash.WriteMetadata(
      meta.(flag := 2, version := Next16(meta.version), fwSize := size, fwSum := sum, id := id));
  }
}

/**
  Boot loader and application commit: two flash slots and one atomic metadata record, with power
  that may be cut at any primitive operation.

  A power budget counts the primitives that complete; the next one is interrupted, and everything
  after it does not happen. An interrupted erase or program leaves anything in the cells it addressed;
  an interrupted metadata save leaves the old record or the new one.
*/
module Boot {
  import opened Bytes
  import opened AppImage

  const CHUNK: nat := 1024

  datatype Meta = Meta(magic: bool, flag: byte, fwSize: nat, fwSum: nat, version: nat, id: byte, boots: nat)

  datatype Nvm = Nvm(a: seq<byte>, b: seq<byte>, meta: Option<Meta>)

  datatype Machine = Machine(nvm: Nvm, ops: nat, on: bool)

  /** noise: what the interrupted erase or program leaves. landed: whether the interrupted save took effect. */
  datatype Cut = Cut(noise: seq<byte>, landed: bool)

  predicate Sized(m: Machine, cut: Cut) {
    |m.nvm.a| == |m.nvm.b| == |cut.noise| == APP_SIZE
  }

  // ---------- primitives ----------

  predicate BlankIn(slot: seq<byte>, lo: nat, hi: nat)
    requires lo <= hi <= |slot|
  {
    forall i :: lo <= i < hi ==> slot[i] == 0xFF
  }

  function EraseA(m: Machine, cut: Cut): Machine {
    if !m.on then m
    else if m.ops == 0 then m.(nvm := m.nvm.(a := cut.noise), on := false)
    else m.(nvm := m.nvm.(a := BlankSlot()), ops := m.ops - 1)
  }

  datatype Written = Written(m: Machine, ok: bool)

  /** Programs A from the same place in B. Cells that are not erased refuse and may be spoilt. */
  function CopyChunk(m: Machine, lo: nat, hi: nat, cut: Cut): Written
    requires Sized(m, cut) && lo <= hi <= APP_SIZE
  {
    if !m.on then Written(m, false)
    else if m.ops == 0 then
      Written(m.(nvm := m.nvm.(a := Patch(m.nvm.a, lo, hi, cut.noise)), on := false), false)
    else if !BlankIn(m.nvm.a, lo, hi) then
      Written(m.(nvm := m.nvm.(a := Patch(m.nvm.a, lo, hi, cut.noise)), ops := m.ops - 1), false)
    else
      Written(m.(nvm := m.nvm.(a := Patch(m.nvm.a, lo, hi, m.nvm.b)), ops := m.ops - 1), true)
  }

  function Saved(nvm: Nvm, meta: Meta): Nvm {
    nvm.(meta := Some(meta))
  }

  predicate SaveLands(m: Machine, cut: Cut) {
    m.on && (m.ops > 0 || cut.landed)
  }

  function Save(m: Machine, meta: Meta, cut: Cut): Machine {
    if !m.on then m
    else if m.ops == 0 then m.(nvm := if cut.landed then Saved(m.nvm, meta) else m.nvm, on := false)
    else m.(nvm := Saved(m.nvm, meta), ops := m.ops - 1)
  }

  // ---------- promotion ----------

  function ChunkEnd(lo: nat, size: nat): (hi: nat)
    requires lo < size
    ensures lo < hi <= size
  {
    if size - lo < CHUNK then size else lo + CHUNK
  }

  function CopyFrom(m: Machine, lo: nat, size: nat, cut: Cut): Written
    requires Sized(m, cut) && size <= APP_SIZE
    decreases size - lo
  {
    if lo >= size then Written(m, true)
    else
      var w := CopyChunk(m, lo, ChunkEnd(lo, size), cut);
      if !w.ok then w else CopyFrom(w.m, lo + CHUNK, size, cut)
  }

  function Promote(m: Machine, size: nat, cut: Cut): Written
    requires Sized(m, cut)
  {
    if size == 0 || size > APP_SIZE then Written(m, false)
    else
      var e := EraseA(m, cut);
      if !e.on then Written(e, false) else CopyFrom(e, 0, size, cut)
  }

  // ---------- start-up ----------

  predicate InRange(size: nat) {
    16 <= size <= APP_SIZE
  }

  predicate BackupMatches(nvm: Nvm) {
    nvm.meta.Some? && InRange(nvm.meta.value.fwSize) && nvm.meta.value.fwSize <= |nvm.b|
    && Sum32(nvm.b[..nvm.meta.value.fwSize]) == nvm.meta.value.fwSum
  }

  predicate AppOk(nvm: Nvm) {
    nvm.meta.Some? && InRange(nvm.meta.value.fwSize) && nvm.meta.value.fwSize <= |nvm.a|
    && Sum32(nvm.a[..nvm.meta.value.fwSize]) == nvm.meta.value.fwSum && VectorSane(nvm.a)
  }

  datatype Outcome = Jump | Restart | Loader | Dead

  datatype Booted = Booted(m: Machine, outcome: Outcome)

  /** Initialisation counts the start, creating the record on a blank chip. */
  function CountBoot(m: Machine, cut: Cut): Machine {
    var meta := if m.nvm.meta.Some? then m.nvm.meta.value else Meta(true, 0, 0, 0, 0, 0, 0);
    Save(m, meta.(boots := meta.boots + 1), cut)
  }

  function ClearFlag(m: Machine, cut: Cut): Machine {
    if m.nvm.meta.Some? then Save(m, m.nvm.meta.value.(flag := 0), cut) else m
  }

  function TryBoot(m: Machine, cut: Cut): Booted
    requires Sized(m, cut)
  {
    var c := CountBoot(m, cut);
    if !c.on || c.nvm.meta.None? then Booted(c, Dead)
    else if !c.nvm.meta.value.magic then Booted(c, Loader)
    else if c.nvm.meta.value.flag == 2 then Resume(c, cut)
    else Choose(c, cut)
  }

  /** A commit was cut short: finish it from B, or forget it if B is not the recorded image. */
  function Resume(m: Machine, cut: Cut): Booted
    requires Sized(m, cut) && m.nvm.meta.Some?
  {
    if BackupMatches(m.nvm) then
      var w := Promote(m, m.nvm.meta.value.fwSize, cut);
      if w.ok then
        var c := ClearFlag(w.m, cut);
        Booted(c, if c.on then Restart else Dead)
      else
        PromotionKeepsShape(m, m.nvm.meta.value.fwSize, cut);
        Choose(ClearFlag(w.m, cut), cut)
    else Choose(ClearFlag(m, cut), cut)
  }

  function Choose(m: Machine, cut: Cut): Booted
    requires Sized(m, cut)
  {
    if !m.on || m.nvm.meta.None? then Booted(m, Dead)
    else if m.nvm.meta.value.flag == 1 then Booted(m, Loader)
    else if AppOk(m.nvm) then Booted(m, Jump)
    else if BackupMatches(m.nvm) then Rebuild(m, cut)
    else Booted(m, Loader)
  }

  /** A is bad but B is the recorded image. */
  function Rebuild(m: Machine, cut: Cut): Booted
    requires Sized(m, cut) && m.nvm.meta.Some?
  {
    var w := Promote(m, m.nvm.meta.value.fwSize, cut);
    var c := if w.ok then ClearFlag(w.m, cut) else w.m;
    Booted(c, if !c.on then Dead else if w.ok && AppOk(c.nvm) then Jump else Loader)
  }

  // ---------- download mode and application ----------

  /** Entering download mode marks it, so that it survives a reset. */
  function EnterLoader(m: Machine, cut: Cut): Machine
    requires m.nvm.meta.Some?
  {
    Save(m, m.nvm.meta.value.(flag := 1), cut)
  }

  function Committed(meta: Meta, size: nat, sum: nat, id: byte): Meta {
    meta.(flag := 2, version := Next16(meta.version), fwSize := size, fwSum := sum, id := id)
  }

  /** The application only records the new image; the next start promotes it. */
  function AppCommit(m: Machine, size: nat, sum: nat, id: byte, cut: Cut): Machine
    requires m.nvm.meta.Some?
  {
    Save(m, Committed(m.nvm.meta.value, size, sum, id), cut)
  }

  function BootAbort(m: Machine, cut: Cut): Booted {
    var c := ClearFlag(m, cut);
    Booted(c, if c.on then Restart else Dead)
  }

  /** The boot loader records the new image, promotes it at once and resets. */
  function BootCommit(m: Machine, size: nat, sum: nat, cut: Cut): Booted
    requires Sized(m, cut) && m.nvm.meta.Some?
  {
    if !InRange(size) then BootAbort(m, cut)
    else
      var c := Save(m, Committed(m.nvm.meta.value, size, sum, m.nvm.meta.value.id), cut);
      BootAbort(Promote(c, size, cut).m, cut)
  }

  function BootId(m: Machine, id: byte, cut: Cut): Machine
    requires m.nvm.meta.Some?
  {
    Save(m, m.nvm.meta.value.(id := id), cut)
  }

  // ---------- promotion touches nothing but A ----------

  lemma {:induction false} CopyKeepsShape(m: Machine, lo: nat, size: nat, cut: Cut)
    requires Sized(m, cut) && size <= APP_SIZE
    ensures var w := CopyFrom(m, lo, size, cut);
            && |w.m.nvm.a| == APP_SIZE && w.m.nvm.b == m.nvm.b && w.m.nvm.meta == m.nvm.meta
            && (w.ok && lo < size ==> w.m.on) && (w.m.on ==> m.on)
    decreases size - lo
  {
    if lo < size && CopyChunk(m, lo, ChunkEnd(lo, size), cut).ok {
      CopyKeepsShape(CopyChunk(m, lo, ChunkEnd(lo, size), cut).m, lo + CHUNK, size, cut);
    }
  }

  lemma PromotionKeepsShape(m: Machine, size: nat, cut: Cut)
    requires Sized(m, cut)
    ensures var w := Promote(m, size, cut);
            && |w.m.nvm.a| == APP_SIZE && w.m.nvm.b == m.nvm.b && w.m.nvm.meta == m.nvm.meta
            && (w.ok ==> w.m.on) && (w.m.on ==> m.on)
  {
    if 0 < size <= APP_SIZE && EraseA(m, cut).on {
      CopyKeepsShape(EraseA(m, cut), 0, size, cut);
    }
  }

  // ---------- promotion copies B ----------

  function Chunks(lo: nat, size: nat): nat
    decreases size - lo
  {
    if lo >= size then 0 else 1 + Chunks(lo + CHUNK, size)
  }

  lemma {:induction false} ChunksIsCeiling(lo: nat, size: nat)
    ensures lo <= size ==> Chunks(lo, size) == (size - lo + 1023) / 1024
    decreases size - lo
  {
    if lo < size {
      ChunksIsCeiling(lo + CHUNK, size);
    }
  }

  ghost predicate CopiedTo(nvm: Nvm, n: nat) {
    |nvm.a| == |nvm.b| == APP_SIZE && n <= APP_SIZE && nvm.a[..n] == nvm.b[..n] && BlankIn(nvm.a, n, APP_SIZE)
  }

  lemma PatchExtends(nvm: Nvm, lo: nat, hi: nat)
    requires CopiedTo(nvm, lo) && lo <= hi <= APP_SIZE
    ensures CopiedTo(nvm.(a := Patch(nvm.a, lo, hi, nvm.b)), hi)
  {
    var a := Patch(nvm.a, lo, hi, nvm.b);
    forall i | 0 <= i < hi ensures a[i] == nvm.b[i] {
      assert i < lo ==> nvm.a[..lo][i] == nvm.b[..lo][i];
    }
  }

  lemma ChunkExtends(m: Machine, lo: nat, hi: nat, cut: Cut)
    requires Sized(m, cut) && m.on && CopiedTo(m.nvm, lo) && lo <= hi <= APP_SIZE
    ensures var w := CopyChunk(m, lo, hi, cut);
            && (w.ok <==> m.ops > 0) && (w.m.on <==> m.ops > 0)
            && (w.ok ==> CopiedTo(w.m.nvm, hi) && w.m.ops == m.ops - 1)
  {
    PatchExtends(m.nvm, lo, hi);
  }

  /** The copy completes exactly when power lasts for its chunks; it never meets a cell that was not erased. */
  lemma {:induction false} CopyCompletes(m: Machine, lo: nat, done: nat, size: nat, cut: Cut)
    requires Sized(m, cut) && m.on && size <= APP_SIZE
    requires done == (if lo < size then lo else size) && CopiedTo(m.nvm, done)
    ensures var w := CopyFrom(m, lo, size, cut);
            && (w.ok <==> m.ops >= Chunks(lo, size)) && (w.m.on <==> w.ok)
            && (w.ok ==> CopiedTo(w.m.nvm, size) && w.m.ops == m.ops - Chunks(lo, size))
    decreases size - lo
  {
    if lo < size {
      var hi := ChunkEnd(lo, size);
      ChunkExtends(m, lo, hi, cut);
      var w := CopyChunk(m, lo, hi, cut);
      if w.ok {
        CopyCompletes(w.m, lo + CHUNK, hi, size, cut);
      }
    }
  }

  /** Promotion completes exactly when power lasts for one erase and every chunk, and then A is B. */
  lemma PromoteCompletes(m: Machine, size: nat, cut: Cut)
    requires Sized(m, cut) && m.on && 0 < size <= APP_SIZE
    ensures var w := Promote(m, size, cut);
            && (w.ok <==> m.ops >= 1 + Chunks(0, size)) && (w.m.on <==> w.ok)
            && |w.m.nvm.a| == APP_SIZE && w.m.nvm.b == m.nvm.b && w.m.nvm.meta == m.nvm.meta
            && (w.ok ==> w.m.nvm.a[..size] == m.nvm.b[..size] && w.m.ops == m.ops - 1 - Chunks(0, size))
  {
    PromotionKeepsShape(m, size, cut);
    if m.ops > 0 {
      CopyCompletes(EraseA(m, cut), 0, 0, size, cut);
    }
  }

  // ---------- what the memory guarantees at rest ----------

  predicate Good(image: seq<byte>) {
    InRange(|image|) && VectorSane(image)
  }

  predicate Holds(slot: seq<byte>, image: seq<byte>) {
    |image| <= |slot| && slot[..|image|] == image
  }

  predicate Records(meta: Meta, image: seq<byte>) {
    meta.magic && meta.fwSize == |image| && meta.fwSum == Sum32(image)
  }

  /** image is the last one whose commit record reached the memory, or the one the board left the factory with. */
  predicate Inv(nvm: Nvm, image: Option<seq<byte>>) {
    && |nvm.a| == |nvm.b| == APP_SIZE
    && match image
       case None => nvm.meta.None? || (nvm.meta.value.magic && nvm.meta.value.flag != 2 && nvm.meta.value.fwSize < 16)
       case Some(i) =>
         && nvm.meta.Some? && Good(i) && Records(nvm.meta.value, i)
         && Holds(if nvm.meta.value.flag == 2 then nvm.b else nvm.a, i)
  }

  lemma BackupIsGood(nvm: Nvm, image: seq<byte>)
    requires |nvm.b| == APP_SIZE && nvm.meta.Some?
    requires Good(image) && Records(nvm.meta.value, image) && Holds(nvm.b, image)
    ensures BackupMatches(nvm)
  {}

  lemma SlotIsGood(nvm: Nvm, image: seq<byte>)
    requires |nvm.a| == APP_SIZE && nvm.meta.Some?
    requires Good(image) && Records(nvm.meta.value, image) && Holds(nvm.a, image)
    ensures AppOk(nvm)
  {
    SaneInSlot(nvm.a, image);
  }

  lemma CountBootKeepsInv(m: Machine, cut: Cut, image: Option<seq<byte>>)
    requires m.on && Inv(m.nvm, image)
    ensures Inv(CountBoot(m, cut).nvm, image)
    ensures var c := CountBoot(m, cut);
            c.on ==> c.nvm.meta.Some? && c.ops == m.ops - 1
                     && (m.nvm.meta.Some? ==> c.nvm.meta.value.flag == m.nvm.meta.value.flag)
  {}

  /** The pending image survives any cut of its promotion, and is in both slots afterwards. */
  lemma PromotionKeepsInv(m: Machine, image: seq<byte>, cut: Cut)
    requires Sized(m, cut) && m.on && Inv(m.nvm, Some(image)) && m.nvm.meta.value.flag == 2
    ensures var w := Promote(m, |image|, cut);
            && Inv(w.m.nvm, Some(image)) && w.m.nvm.meta == m.nvm.meta
            && (w.m.on <==> w.ok) && (w.ok <==> m.ops >= 1 + Chunks(0, |image|))
            && (w.ok ==> Holds(w.m.nvm.a, image) && w.m.ops == m.ops - 1 - Chunks(0, |image|))
  {
    PromoteCompletes(m, |image|, cut);
  }

  lemma ClearAfterPromotion(m: Machine, image: seq<byte>, cut: Cut)
    requires Inv(m.nvm, Some(image)) && Holds(m.nvm.a, image)
    ensures var c := ClearFlag(m, cut);
            Inv(c.nvm, Some(image)) && Holds(c.nvm.a, image) && (c.on ==> c.nvm.meta.value.flag == 0)
            && (c.on <==> m.on && m.ops > 0)
  {}

  /** Starting with a commit pending: either power is lost, or the image has been promoted and the board resets. */
  lemma ResumeKeepsInv(m: Machine, image: seq<byte>, cut: Cut)
    requires Sized(m, cut) && m.on && Inv(m.nvm, Some(image)) && m.nvm.meta.value.flag == 2
    ensures var r := Resume(m, cut);
            && Inv(r.m.nvm, Some(image)) && (r.outcome == Dead <==> !r.m.on)
            && r.outcome == (if m.ops >= 2 + Chunks(0, |image|) then Restart else Dead)
            && (r.outcome == Restart ==> r.m.nvm.meta.value.flag == 0 && Holds(r.m.nvm.a, image))
  {
    BackupIsGood(m.nvm, image);
    PromotionKeepsInv(m, image, cut);
    var w := Promote(m, |image|, cut);
    if w.ok {
      ClearAfterPromotion(w.m, image, cut);
    }
  }

  /** With nothing pending, the image in A is run, unless download mode was asked for. */
  lemma ChooseKeepsInv(m: Machine, image: Option<seq<byte>>, cut: Cut)
    requires Sized(m, cut) && m.on && m.nvm.meta.Some? && Inv(m.nvm, image) && m.nvm.meta.value.flag != 2
    ensures var r := Choose(m, cut);
            && r.m == m
            && r.outcome == (if image.Some? && m.nvm.meta.value.flag != 1 then Jump else Loader)
  {
    if image.Some? {
      SlotIsGood(m.nvm, image.value);
    }
  }

  /**
    A start under any power cut keeps the guarantee, and a start that reaches the jump has exactly the
    last committed image in the slot it runs.
  */
  lemma StartKeepsInv(m: Machine, image: Option<seq<byte>>, cut: Cut)
    requires Sized(m, cut) && m.on && Inv(m.nvm, image)
    ensures var r := TryBoot(m, cut);
            && Inv(r.m.nvm, image) && (r.outcome == Dead <==> !r.m.on)
            && (r.outcome != Dead ==> r.m.nvm.meta.Some?)
            && (r.outcome == Jump ==> image.Some? && Holds(r.m.nvm.a, image.value) && r.m.nvm.meta.value.flag != 2)
            && (r.outcome == Loader ==> r.m.nvm.meta.value.flag != 2)
  {
    CountBootKeepsInv(m, cut, image);
    var c := CountBoot(m, cut);
    if c.on {
      if c.nvm.meta.value.flag == 2 {
        ResumeKeepsInv(c, image.value, cut);
      } else {
        ChooseKeepsInv(c, image, cut);
      }
    }
  }

  /** Once power stays on, a board not in download mode runs the last committed image after at most one reset. */
  lemma PoweredStartRuns(m: Machine, image: seq<byte>, cut: Cut, ops: nat, cut': Cut)
    requires Sized(m, cut) && m.on && Inv(m.nvm, Some(image)) && m.nvm.meta.value.flag != 1
    requires |cut'.noise| == APP_SIZE
    requires m.ops >= 3 + Chunks(0, |image|) && ops >= 1
    ensures var r := TryBoot(m, cut);
            && r.outcome == (if m.nvm.meta.value.flag == 2 then Restart else Jump)
            && Holds(r.m.nvm.a, image)
            && (r.outcome == Restart ==>
                  var again := Machine(r.m.nvm, ops, true);
                  Sized(again, cut') && TryBoot(again, cut').outcome == Jump
                  && Holds(TryBoot(again, cut').m.nvm.a, image))
  {
    CountBootKeepsInv(m, cut, Some(image));
    var c := CountBoot(m, cut);
    if c.nvm.meta.value.flag == 2 {
      ResumeKeepsInv(c, image, cut);
      var again := Machine(Resume(c, cut).m.nvm, ops, true);
      CountBootKeepsInv(again, cut', Some(image));
      ChooseKeepsInv(CountBoot(again, cut'), Some(image), cut');
    } else {
      ChooseKeepsInv(c, Some(image), cut);
    }
  }

  // ---------- commits ----------

  function ImageAfterSave(m: Machine, cut: Cut, size: nat, image: Option<seq<byte>>): Option<seq<byte>>
    requires size <= |m.nvm.b|
  {
    if SaveLands(m, cut) then Some(m.nvm.b[..size]) else image
  }

  ghost predicate Downloaded(nvm: Nvm, size: nat, sum: nat) {
    InRange(size) && size <= |nvm.b| && sum == Sum32(nvm.b[..size]) && VectorSane(nvm.b)
  }

  lemma DownloadedIsGood(nvm: Nvm, size: nat, sum: nat)
    requires Downloaded(nvm, size, sum)
    ensures Good(nvm.b[..size])
  {
    SaneInSlot(nvm.b, nvm.b[..size]);
  }

  /** Recording a commit switches from the old image to the new one in a single step. */
  lemma AppCommitKeepsInv(m: Machine, image: Option<seq<byte>>, size: nat, sum: nat, id: byte, cut: Cut)
    requires m.on && m.nvm.meta.Some? && Inv(m.nvm, image) && Downloaded(m.nvm, size, sum)
    ensures var c := AppCommit(m, size, sum, id, cut);
            Inv(c.nvm, ImageAfterSave(m, cut, size, image)) && c.nvm.meta.Some?
  {
    DownloadedIsGood(m.nvm, size, sum);
  }

  lemma ClearFlagKeepsInv(m: Machine, image: Option<seq<byte>>, cut: Cut)
    requires Inv(m.nvm, image) && m.nvm.meta.Some?
    requires m.nvm.meta.value.flag == 2 ==> !m.on || Holds(m.nvm.a, image.value)
    ensures Inv(ClearFlag(m, cut).nvm, image) && ClearFlag(m, cut).nvm.meta.Some?
  {}

  lemma BootCommitKeepsInv(m: Machine, image: Option<seq<byte>>, size: nat, sum: nat, cut: Cut)
    requires Sized(m, cut) && m.on && m.nvm.meta.Some? && Inv(m.nvm, image) && m.nvm.meta.value.flag != 2
    requires InRange(size) ==> Downloaded(m.nvm, size, sum)
    ensures var r := BootCommit(m, size, sum, cut);
            && Inv(r.m.nvm, if InRange(size) then ImageAfterSave(m, cut, size, image) else image)
            && r.m.nvm.meta.Some? && r.outcome in {Restart, Dead}
  {
    if InRange(size) {
      AppCommitKeepsInv(m, image, size, sum, m.nvm.meta.value.id, cut);
      var c := AppCommit(m, size, sum, m.nvm.meta.value.id, cut);
      var now := ImageAfterSave(m, cut, size, image);
      if c.on {
        PromotionKeepsInv(c, now.value, cut);
        ClearFlagKeepsInv(Promote(c, size, cut).m, now, cut);
      } else {
        DeadStays(c, size, cut);
      }
    } else {
      ClearFlagKeepsInv(m, image, cut);
    }
  }

  lemma DeadStays(m: Machine, size: nat, cut: Cut)
    requires Sized(m, cut) && !m.on
    ensures Promote(m, size, cut).m == m && ClearFlag(m, cut) == m
  {}

  // ---------- A is never touched without a backup ----------

  /**
    On any memory content and under any cut, starting up leaves B and the recorded size and checksum
    alone, and changes A only while B matches that record, which it then still does.
  */
  lemma TouchesAOnlyFromBackup(m: Machine, cut: Cut)
    requires Sized(m, cut) && m.on
    ensures var n := TryBoot(m, cut).m.nvm;
            && n.b == m.nvm.b
            && (m.nvm.meta.Some? ==> n.meta.Some? && n.meta.value.fwSize == m.nvm.meta.value.fwSize
                                     && n.meta.value.fwSum == m.nvm.meta.value.fwSum)
            && (n.a != m.nvm.a ==> BackupMatches(m.nvm) && BackupMatches(n))
  {
    var c := CountBoot(m, cut);
    if c.on && c.nvm.meta.value.magic {
      if c.nvm.meta.value.flag == 2 {
        if BackupMatches(c.nvm) {
          PromotionKeepsShape(c, c.nvm.meta.value.fwSize, cut);
          ChooseTouchesAOnlyFromBackup(ClearFlag(Promote(c, c.nvm.meta.value.fwSize, cut).m, cut), cut);
        } else {
          ChooseTouchesAOnlyFromBackup(ClearFlag(c, cut), cut);
        }
      } else {
        ChooseTouchesAOnlyFromBackup(c, cut);
      }
    }
  }

  lemma ChooseTouchesAOnlyFromBackup(m: Machine, cut: Cut)
    requires Sized(m, cut) && m.nvm.meta.Some?
    ensures var n := Choose(m, cut).m.nvm;
            && n.b == m.nvm.b && n.meta.Some?
            && n.meta.value.fwSize == m.nvm.meta.value.fwSize && n.meta.value.fwSum == m.nvm.meta.value.fwSum
            && (n.a != m.nvm.a ==> BackupMatches(m.nvm))
  {
    PromotionKeepsShape(m, m.nvm.meta.value.fwSize, cut);
  }

  /**
    The same for the boot loader's own commit: B stays, and A changes only once the record describes the
    committed image, which B then still is.
  */
  lemma CommitTouchesAOnlyFromRecord(m: Machine, size: nat, sum: nat, cut: Cut)
    requires Sized(m, cut) && m.nvm.meta.Some?
    ensures var n := BootCommit(m, size, sum, cut).m.nvm;
            && n.b == m.nvm.b && n.meta.Some?
            && (n.a != m.nvm.a ==>
                  && InRange(size) && n.meta.value.fwSize == size && n.meta.value.fwSum == sum
                  && (sum == Sum32(m.nvm.b[..size]) ==> BackupMatches(n)))
  {
    if InRange(size) {
      PromotionKeepsShape(Save(m, Committed(m.nvm.meta.value, size, sum, m.nvm.meta.value.id), cut), size, cut);
    }
  }

  // ---------- A is rebuilt from B ----------

  /** B is the recorded image and no commit or download is waiting. */
  predicate Healable(nvm: Nvm) {
    nvm.meta.Some? && nvm.meta.value.magic && nvm.meta.value.flag !in {1, 2} && BackupMatches(nvm)
  }

  lemma CopyIsJudgedLikeB(nvm: Nvm, size: nat)
    requires |nvm.a| == |nvm.b| == APP_SIZE && nvm.meta.Some? && BackupMatches(nvm)
    requires size == nvm.meta.value.fwSize && nvm.a[..size] == nvm.b[..size]
    ensures AppOk(nvm) <==> VectorSane(nvm.b)
  {
    SaneInSlot(nvm.a, nvm.b[..size]);
    SaneInSlot(nvm.b, nvm.b[..size]);
  }

  lemma RebuildCompletes(m: Machine, cut: Cut)
    requires Sized(m, cut) && m.on && Healable(m.nvm)
    requires m.ops >= 2 + Chunks(0, m.nvm.meta.value.fwSize)
    ensures var r := Rebuild(m, cut);
            && r.outcome == (if VectorSane(m.nvm.b) then Jump else Loader)
            && |r.m.nvm.a| == APP_SIZE && r.m.nvm.b == m.nvm.b
            && r.m.nvm.a[..m.nvm.meta.value.fwSize] == m.nvm.b[..m.nvm.meta.value.fwSize]
            && r.m.nvm.meta.Some? && r.m.nvm.meta.value.flag == 0
  {
    var size := m.nvm.meta.value.fwSize;
    PromoteCompletes(m, size, cut);
    CopyIsJudgedLikeB(ClearFlag(Promote(m, size, cut).m, cut).nvm, size);
  }

  /** With A bad and B the recorded image, a powered start rebuilds A and runs it exactly if it is sane. */
  lemma PoweredStartHeals(m: Machine, cut: Cut)
    requires Sized(m, cut) && m.on && Healable(m.nvm) && !AppOk(m.nvm)
    requires m.ops >= 3 + Chunks(0, m.nvm.meta.value.fwSize)
    ensures var r := TryBoot(m, cut);
            && r.outcome == (if VectorSane(m.nvm.b) then Jump else Loader)
            && |r.m.nvm.a| == APP_SIZE && r.m.nvm.b == m.nvm.b
            && r.m.nvm.a[..m.nvm.meta.value.fwSize] == m.nvm.b[..m.nvm.meta.value.fwSize]
            && r.m.nvm.meta.Some? && r.m.nvm.meta.value.flag == 0
  {
    var c := CountBoot(m, cut);
    assert Healable(c.nvm) && !AppOk(c.nvm);
    RebuildCompletes(c, cut);
  }

  lemma RebuildStaysHealable(m: Machine, cut: Cut)
    requires Sized(m, cut) && Healable(m.nvm)
    ensures var n := Rebuild(m, cut).m.nvm; Healable(n) && |n.a| == APP_SIZE && n.b == m.nvm.b
  {
    PromotionKeepsShape(m, m.nvm.meta.value.fwSize, cut);
  }

  lemma StartStaysHealable(m: Machine, cut: Cut)
    requires Sized(m, cut) && m.on && Healable(m.nvm)
    ensures var n := TryBoot(m, cut).m.nvm;
            && Healable(n) && |n.a| == APP_SIZE && n.b == m.nvm.b
            && n.meta.value.fwSize == m.nvm.meta.value.fwSize
  {
    TouchesAOnlyFromBackup(m, cut);
    var c := CountBoot(m, cut);
    if c.on {
      RebuildStaysHealable(c, cut);
    }
  }

  /**
    That rebuild is restartable: cut anywhere, it leaves the memory as healable as before, and the next
    powered start runs A if A passes its check as it stands, and otherwise rebuilds it.
  */
  lemma HealingIsRestartable(m: Machine, cut: Cut, ops: nat, cut': Cut)
    requires Sized(m, cut) && m.on && Healable(m.nvm) && |cut'.noise| == APP_SIZE
    requires ops >= 3 + Chunks(0, m.nvm.meta.value.fwSize)
    ensures var n := TryBoot(m, cut).m.nvm;
            && Healable(n) && |n.a| == |n.b| == APP_SIZE && n.b == m.nvm.b
            && var r := TryBoot(Machine(n, ops, true), cut');
               && r.outcome == (if AppOk(n) || VectorSane(m.nvm.b) then Jump else Loader)
               && |r.m.nvm.a| == APP_SIZE
               && (if AppOk(n) then r.m.nvm.a == n.a
                   else r.m.nvm.a[..m.nvm.meta.value.fwSize] == m.nvm.b[..m.nvm.meta.value.fwSize])
  {
    StartStaysHealable(m, cut);
    var again := Machine(TryBoot(m, cut).m.nvm, ops, true);
    if AppOk(again.nvm) {
      GoodSlotRuns(again, cut');
    } else {
      PoweredStartHeals(again, cut');
    }
  }

  lemma GoodSlotRuns(m: Machine, cut: Cut)
    requires Sized(m, cut) && m.on && m.ops >= 1 && m.nvm.meta.Some? && m.nvm.meta.value.magic
    requires m.nvm.meta.value.flag !in {1, 2} && AppOk(m.nvm)
    ensures TryBoot(m, cut).outcome == Jump && TryBoot(m, cut).m.nvm.a == m.nvm.a
  {}

  // ---------- when a pending image is lost ----------

  /** A powered start with a commit pending finishes it exactly when B is the recorded image. */
  lemma PendingIsFinishedIff(m: Machine, cut: Cut)
    requires Sized(m, cut) && m.on && m.nvm.meta.Some? && m.nvm.meta.value.magic && m.nvm.meta.value.flag == 2
    requires m.ops >= 3 + Chunks(0, m.nvm.meta.value.fwSize)
    ensures var r := TryBoot(m, cut);
            && r.outcome == (if BackupMatches(m.nvm) then Restart else if AppOk(m.nvm) then Jump else Loader)
            && (r.outcome == Restart ==>
                  m.nvm.meta.value.fwSize <= |r.m.nvm.a|
                  && r.m.nvm.a[..m.nvm.meta.value.fwSize] == m.nvm.b[..m.nvm.meta.value.fwSize])
  {
    var c := CountBoot(m, cut);
    if BackupMatches(m.nvm) {
      PromoteCompletes(c, m.nvm.meta.value.fwSize, cut);
    }
  }

  /**
    A START accepted while a commit is pending erases B. The record already describes the new image, so
    neither image runs any more, although the old one is still untouched in A.
  */
  lemma StartWhilePendingLosesBoth(m: Machine, pending: seq<byte>, cut: Cut)
    requires Sized(m, cut) && m.on && Inv(m.nvm, Some(pending)) && m.nvm.meta.value.flag == 2
    requires m.ops >= 3 + Chunks(0, |pending|)
    requires Sum32(m.nvm.a[..|pending|]) != Sum32(pending) && Sum32(BlankSlot()[..|pending|]) != Sum32(pending)
    ensures var r := TryBoot(m.(nvm := m.nvm.(b := BlankSlot())), cut); r.outcome == Loader && r.m.nvm.a == m.nvm.a
  {
    var erased := m.(nvm := m.nvm.(b := BlankSlot()));
    PendingIsFinishedIff(erased, cut);
    TouchesAOnlyFromBackup(erased, cut);
  }

  /**
    A commit in download mode is not checked before it is promoted: recorded with any checksum but its
    own, the image replaces the one in A and is then refused at the next start.
  */
  lemma WrongSumCommitNeverRuns(m: Machine, size: nat, sum: nat, cut: Cut, ops: nat, cut': Cut)
    requires Sized(m, cut) && m.on && m.nvm.meta.Some? && m.nvm.meta.value.magic && InRange(size)
    requires sum != Sum32(m.nvm.b[..size])
    requires m.ops >= 3 + Chunks(0, size) && ops >= 1 && |cut'.noise| == APP_SIZE
    ensures var r := BootCommit(m, size, sum, cut);
            && r.outcome == Restart && |r.m.nvm.a| == |r.m.nvm.b| == APP_SIZE
            && r.m.nvm.a[..size] == m.nvm.b[..size]
            && TryBoot(Machine(r.m.nvm, ops, true), cut').outcome == Loader
  {
    var c := Save(m, Committed(m.nvm.meta.value, size, sum, m.nvm.meta.value.id), cut);
    PromoteCompletes(c, size, cut);
    var r := BootCommit(m, size, sum, cut);
    RefusedAtStart(Machine(r.m.nvm, ops, true), cut');
  }

  lemma RefusedAtStart(m: Machine, cut: Cut)
    requires Sized(m, cut) && m.on && m.ops >= 1 && m.nvm.meta.Some? && m.nvm.meta.value.flag != 2
    requires !AppOk(m.nvm) && !BackupMatches(m.nvm)
    ensures TryBoot(m, cut).outcome == Loader
  {}

  // ---------- download mode: entered, left, survived ----------

  /** With power on, ABORT leaves download mode: the board resets and runs the image that was in A all along. */
  lemma AbortRunsTheOldImage(m: Machine, image: seq<byte>, cut: Cut, ops: nat, cut': Cut)
    requires Sized(m, cut) && m.on && m.ops >= 1 && Inv(m.nvm, Some(image)) && m.nvm.meta.value.flag == 1
    requires |cut'.noise| == APP_SIZE && ops >= 1
    ensures var r := BootAbort(m, cut);
            && r.outcome == Restart && |r.m.nvm.a| == |r.m.nvm.b| == APP_SIZE
            && var again := TryBoot(Machine(r.m.nvm, ops, true), cut');
               again.outcome == Jump && Holds(again.m.nvm.a, image)
  {
    ClearFlagKeepsInv(m, Some(image), cut);
    var again := Machine(BootAbort(m, cut).m.nvm, ops, true);
    CountBootKeepsInv(again, cut', Some(image));
    ChooseKeepsInv(CountBoot(again, cut'), Some(image), cut');
  }

  /** An abort touches nothing but the flag: not the slots, not what the record says of the image. */
  lemma AbortClearsOnlyTheFlag(m: Machine, cut: Cut)
    requires m.nvm.meta.Some?
    ensures var n := BootAbort(m, cut).m.nvm;
            && n.a == m.nvm.a && n.b == m.nvm.b
            && (n == m.nvm || n.meta == Some(m.nvm.meta.value.(flag := 0)))
            && (m.on && m.ops >= 1 ==>
                  n.meta == Some(m.nvm.meta.value.(flag := 0)) && BootAbort(m, cut).outcome == Restart)
  {}

  /** Download mode, once marked, is where every later start ends, with both slots untouched, until it is left. */
  lemma DownloadModeSurvives(m: Machine, cut: Cut, ops: nat, cut': Cut)
    requires Sized(m, cut) && m.on && m.ops >= 1 && m.nvm.meta.Some? && m.nvm.meta.value.magic
    requires |cut'.noise| == APP_SIZE && ops >= 1
    ensures var l := EnterLoader(m, cut);
            && l.on && |l.nvm.a| == |l.nvm.b| == APP_SIZE
            && var r := TryBoot(Machine(l.nvm, ops, true), cut');
               r.outcome == Loader && r.m.nvm.a == m.nvm.a && r.m.nvm.b == m.nvm.b && r.m.nvm.meta.value.flag == 1
  {}

  /** With power on, a commit in download mode ends in a reset, and the committed image runs at the next start. */
  lemma BootCommitRuns(m: Machine, size: nat, sum: nat, cut: Cut, ops: nat, cut': Cut)
    requires Sized(m, cut) && m.on && m.nvm.meta.Some? && m.nvm.meta.value.magic && Downloaded(m.nvm, size, sum)
    requires m.ops >= 3 + Chunks(0, size) && |cut'.noise| == APP_SIZE && ops >= 1
    ensures var r := BootCommit(m, size, sum, cut);
            && r.outcome == Restart && |r.m.nvm.a| == |r.m.nvm.b| == APP_SIZE
            && var again := TryBoot(Machine(r.m.nvm, ops, true), cut');
               again.outcome == Jump && Holds(again.m.nvm.a, m.nvm.b[..size])
  {
    var image := m.nvm.b[..size];
    DownloadedIsGood(m.nvm, size, sum);
    var c := Save(m, Committed(m.nvm.meta.value, size, sum, m.nvm.meta.value.id), cut);
    assert Inv(c.nvm, Some(image));
    PromotionKeepsInv(c, image, cut);
    var w := Promote(c, size, cut);
    ClearAfterPromotion(w.m, image, cut);
    var r := BootCommit(m, size, sum, cut);
    assert r.m == ClearFlag(w.m, cut);
    var again := Machine(r.m.nvm, ops, true);
    CountBootKeepsInv(again, cut', Some(image));
    ChooseKeepsInv(CountBoot(again, cut'), Some(image), cut');
  }

  /** A cut in mid-promotion: in the erase it leaves anything at all in A, in a chunk anything in that chunk. */
  lemma CutTearsA(m: Machine, cut: Cut)
    requires Sized(m, cut) && m.on && m.nvm.meta.Some? && m.nvm.meta.value.magic && m.nvm.meta.value.flag == 2
    requires BackupMatches(m.nvm) && m.nvm.meta.value.fwSize >= 1024
    ensures var r := TryBoot(m.(ops := 1), cut); r.outcome == Dead && r.m.nvm.a == cut.noise
    ensures var r := TryBoot(m.(ops := 2), cut);
            r.outcome == Dead && r.m.nvm.a == cut.noise[..1024] + BlankSlot()[1024..]
  {
    var size := m.nvm.meta.value.fwSize;
    var c := CountBoot(m.(ops := 1), cut);
    assert !EraseA(c, cut).on && !Promote(c, size, cut).ok;
    var d := CountBoot(m.(ops := 2), cut);
    var e := EraseA(d, cut);
    assert ChunkEnd(0, size) == 1024;
    assert CopyFrom(e, 0, size, cut) == CopyChunk(e, 0, 1024, cut) == Promote(d, size, cut);
  }

  /** A commit of an impossible size is an abort. */
  lemma ImpossibleCommitAborts(m: Machine, size: nat, sum: nat, cut: Cut)
    requires Sized(m, cut) && m.nvm.meta.Some? && (size < 16 || size > 98304)
    ensures BootCommit(m, size, sum, cut) == BootAbort(m, cut)
  {}

  // ---------- identity, version and count of starts ----------

  /** A start keeps identity and version and counts itself once, as soon as its first save lands. */
  lemma StartIsCounted(m: Machine, cut: Cut)
    requires Sized(m, cut) && m.on && m.nvm.meta.Some?
    ensures var n := TryBoot(m, cut).m.nvm;
            && n.meta.Some? && n.meta.value.id == m.nvm.meta.value.id
            && n.meta.value.version == m.nvm.meta.value.version
            && n.meta.value.magic == m.nvm.meta.value.magic
            && n.meta.value.boots == m.nvm.meta.value.boots + (if m.ops > 0 || cut.landed then 1 else 0)
  {
    var c := CountBoot(m, cut);
    if c.on && c.nvm.meta.value.magic {
      var size := c.nvm.meta.value.fwSize;
      PromotionKeepsShape(c, size, cut);
      if c.nvm.meta.value.flag == 2 && BackupMatches(c.nvm) {
        var d := ClearFlag(Promote(c, size, cut).m, cut);
        ChooseKeepsCounts(d, cut);
      } else if c.nvm.meta.value.flag == 2 {
        ChooseKeepsCounts(ClearFlag(c, cut), cut);
      } else {
        ChooseKeepsCounts(c, cut);
      }
    }
  }

  lemma ChooseKeepsCounts(m: Machine, cut: Cut)
    requires Sized(m, cut) && m.nvm.meta.Some?
    ensures var n := Choose(m, cut).m.nvm;
            && n.meta.Some? && n.meta.value.id == m.nvm.meta.value.id
            && n.meta.value.version == m.nvm.meta.value.version
            && n.meta.value.magic == m.nvm.meta.value.magic && n.meta.value.boots == m.nvm.meta.value.boots
  {
    PromotionKeepsShape(m, m.nvm.meta.value.fwSize, cut);
  }

  /** A learnt identity is all that its save changes. */
  lemma IdentityIsRecorded(m: Machine, id: byte, cut: Cut)
    requires m.on && m.ops >= 1 && m.nvm.meta.Some?
    ensures var n := BootId(m, id, cut);
            n.on && n.nvm.meta == Some(m.nvm.meta.value.(id := id)) && n.nvm.a == m.nvm.a && n.nvm.b == m.nvm.b
  {}

  /** Both commits raise the version by one, modulo 2^16; the application's also records its own identity. */
  lemma CommitsRaiseVersion(m: Machine, size: nat, sum: nat, id: byte, cut: Cut)
    requires Sized(m, cut) && m.on && m.ops >= 1 && m.nvm.meta.Some? && m.nvm.meta.value.version < 65536
    ensures var n := AppCommit(m, size, sum, id, cut).nvm;
            && n.meta.value.version == (m.nvm.meta.value.version + 1) % 65536 && n.meta.value.id == id
            && n.meta.value.flag == 2 && n.meta.value.fwSize == size && n.meta.value.fwSum == sum
            && n.meta.value.boots == m.nvm.meta.value.boots && n.a == m.nvm.a && n.b == m.nvm.b
    ensures 16 <= size <= 98304 ==>
              var n := BootCommit(m, size, sum, cut).m.nvm;
              && n.meta.Some? && n.meta.value.version == (m.nvm.meta.value.version + 1) % 65536
              && n.meta.value.id == m.nvm.meta.value.id
  {
    if InRange(size) {
      PromotionKeepsShape(Save(m, Committed(m.nvm.meta.value, size, sum, m.nvm.meta.value.id), cut), size, cut);
    }
  }

  /** A blank chip gets a record that describes no image, and starts in download mode. */
  lemma BlankChipDownloads(m: Machine, cut: Cut)
    requires Sized(m, cut) && m.on && m.ops >= 1 && m.nvm.meta.None?
    ensures var r := TryBoot(m, cut);
            r.outcome == Loader && r.m.on && r.m.nvm == m.nvm.(meta := Some(Meta(true, 0, 0, 0, 0, 0, 1)))
  {}

  /** A record with a wrong magic number never starts anything. */
  lemma WrongMagicDownloads(m: Machine, cut: Cut)
    requires Sized(m, cut) && m.on && m.ops >= 1 && m.nvm.meta.Some? && !m.nvm.meta.value.magic
    ensures var r := TryBoot(m, cut); r.outcome == Loader && r.m.nvm.a == m.nvm.a && r.m.nvm.b == m.nvm.b
  {}

  // ---------- whole lives ----------

  datatype Mode = Off | App | Download

  datatype Sys = Sys(nvm: Nvm, mode: Mode, image: Option<seq<byte>>)

  /** Slots have their size, and only a board with a record is ever running. */
  predicate Whole(s: Sys) {
    |s.nvm.a| == |s.nvm.b| == APP_SIZE && (s.mode != Off ==> s.nvm.meta.Some?)
  }

  datatype Event =
    | PowerOn(ops: nat, cut: Cut)
    | PowerOff
    | Scribble(slot: seq<byte>)
    | CommitFromApp(size: nat, sum: nat, id: byte, ops: nat, cut: Cut)
    | CommitFromBoot(size: nat, sum: nat, ops: nat, cut: Cut)
    | AbortInBoot(ops: nat, cut: Cut)
    | LearnInBoot(id: byte, ops: nat, cut: Cut)

  /**
    Slot B changes only in a session, and never between a commit and the start that promotes it. A
    commit carries the size and checksum of what slot B holds, as the download session guarantees.
  */
  ghost predicate Possible(s: Sys, e: Event) {
    Whole(s) &&
    match e
    case PowerOn(_, cut) => s.mode == Off && |cut.noise| == APP_SIZE
    case PowerOff => true
    case Scribble(slot) => s.mode != Off && |slot| == APP_SIZE && (s.nvm.meta.Some? ==> s.nvm.meta.value.flag != 2)
    case CommitFromApp(size, sum, _, _, _) => s.mode == App && Downloaded(s.nvm, size, sum)
    case CommitFromBoot(size, sum, _, cut) =>
      s.mode == Download && |cut.noise| == APP_SIZE && (InRange(size) ==> Downloaded(s.nvm, size, sum))
    case AbortInBoot(_, _) => s.mode == Download
    case LearnInBoot(_, _, _) => s.mode == Download
  }

  function AfterStart(s: Sys, r: Booted, cut: Cut): Sys {
    match r.outcome
    case Jump => Sys(r.m.nvm, App, s.image)
    case Loader =>
      if r.m.nvm.meta.None? then Sys(r.m.nvm, Off, s.image)
      else
        var l := EnterLoader(r.m, cut);
        Sys(l.nvm, if l.on then Download else Off, s.image)
    case _ => Sys(r.m.nvm, Off, s.image)
  }

  ghost predicate SysInv(s: Sys) {
    && Inv(s.nvm, s.image) && Whole(s)
    && (s.mode == Download ==> s.nvm.meta.value.flag != 2)
  }

  ghost function Next(s: Sys, e: Event): Sys
    requires Possible(s, e)
  {
    match e
    case PowerOn(ops, cut) => AfterStart(s, TryBoot(Machine(s.nvm, ops, true), cut), cut)
    case PowerOff => s.(mode := Off)
    case Scribble(slot) => s.(nvm := s.nvm.(b := slot))
    case CommitFromApp(size, sum, id, ops, cut) =>
      var m := Machine(s.nvm, ops, true);
      var c := AppCommit(m, size, sum, id, cut);
      Sys(c.nvm, if c.on then App else Off, ImageAfterSave(m, cut, size, s.image))
    case CommitFromBoot(size, sum, ops, cut) =>
      var m := Machine(s.nvm, ops, true);
      var image := if InRange(size) then ImageAfterSave(m, cut, size, s.image) else s.image;
      Sys(BootCommit(m, size, sum, cut).m.nvm, Off, image)
    case AbortInBoot(ops, cut) => Sys(BootAbort(Machine(s.nvm, ops, true), cut).m.nvm, Off, s.image)
    case LearnInBoot(id, ops, cut) =>
      var c := BootId(Machine(s.nvm, ops, true), id, cut);
      Sys(c.nvm, if c.on then Download else Off, s.image)
  }

  lemma NextKeepsInv(s: Sys, e: Event)
    requires SysInv(s) && Possible(s, e)
    ensures SysInv(Next(s, e))
  {
    match e
    case PowerOn(ops, cut) => StartKeepsInv(Machine(s.nvm, ops, true), s.image, cut);
    case CommitFromApp(size, sum, id, ops, cut) =>
      AppCommitKeepsInv(Machine(s.nvm, ops, true), s.image, size, sum, id, cut);
    case CommitFromBoot(size, sum, ops, cut) =>
      BootCommitKeepsInv(Machine(s.nvm, ops, true), s.image, size, sum, cut);
    case AbortInBoot(ops, cut) => ClearFlagKeepsInv(Machine(s.nvm, ops, true), s.image, cut);
    case _ =>
  }

  ghost predicate Follows(s: Sys, e: Event, t: Sys) {
    Possible(s, e) && t == Next(s, e)
  }

  ghost predicate Linked(systems: seq<Sys>, events: seq<Event>, step: (Sys, Event, Sys) -> bool) {
    |systems| == |events| + 1 && forall i :: 0 <= i < |events| ==> step(systems[i], events[i], systems[i + 1])
  }

  ghost predicate Life(systems: seq<Sys>, events: seq<Event>) {
    && Linked(systems, events, (s, e, t) => Follows(s, e, t))
    && SysInv(systems[0])
  }

  lemma {:induction false} LifeKeepsInv(systems: seq<Sys>, events: seq<Event>, k: nat)
    requires Life(systems, events) && k <= |events|
    ensures SysInv(systems[k])
  {
    if k > 0 {
      LifeKeepsInv(systems, events, k - 1);
      assert Follows(systems[k - 1], events[k - 1], systems[k]);
      NextKeepsInv(systems[k - 1], events[k - 1]);
    }
  }

  /**
    Atomic upgrade. Over any life of starts, power cuts at any primitive, downloads, commits and aborts:
    every start that reaches the jump runs exactly the last image whose commit reached the memory, or
    the original one if there was none.
  */
  lemma EveryJumpRunsTheLastImage(systems: seq<Sys>, events: seq<Event>, k: nat)
    requires Life(systems, events) && k < |events| && events[k].PowerOn?
    ensures Follows(systems[k], events[k], systems[k + 1])
    ensures var s, e := systems[k], events[k];
            var r := TryBoot(Machine(s.nvm, e.ops, true), e.cut);
            && systems[k + 1].image == s.image
            && (r.outcome == Jump ==> s.image.Some? && Holds(r.m.nvm.a, s.image.value))
  {
    LifeKeepsInv(systems, events, k);
    assert Follows(systems[k], events[k], systems[k + 1]);
    StartKeepsInv(Machine(systems[k].nvm, events[k].ops, true), systems[k].image, events[k].cut);
  }

  // ---------- lives between two systems ----------

  /** Some life leads from s to t. */
  ghost predicate Leads(s: Sys, t: Sys) {
    exists systems: seq<Sys>, events: seq<Event> ::
      Life(systems, events) && systems[0] == s && systems[|events|] == t
  }

  lemma LeadsNowhere(s: Sys)
    requires SysInv(s)
    ensures Leads(s, s)
  {
    var systems: seq<Sys>, events: seq<Event> := [s], [];
    assert Life(systems, events) && systems[0] == s && systems[|events|] == s;
  }

  lemma LinkedExtends(systems: seq<Sys>, events: seq<Event>, step: (Sys, Event, Sys) -> bool, e: Event, t: Sys)
    requires Linked(systems, events, step) && step(systems[|events|], e, t)
    ensures Linked(systems + [t], events + [e], step)
  {}

  lemma LeadsOn(s: Sys, t: Sys, e: Event, u: Sys)
    requires Leads(s, t) && Follows(t, e, u)
    ensures Leads(s, u)
  {
    var systems: seq<Sys>, events: seq<Event> :| Life(systems, events) && systems[0] == s && systems[|events|] == t;
    LinkedExtends(systems, events, (s, e, t) => Follows(s, e, t), e, u);
    var systems', events' := systems + [u], events + [e];
    assert Life(systems', events') && systems'[0] == s && systems'[|events'|] == u;
  }

  /** An application is running image, with neither a commit nor a download waiting, and slot in B. */
  predicate Running(s: Sys, image: seq<byte>, slot: seq<byte>) {
    && s.mode == App && s.image == Some(image) && s.nvm.b == slot && Inv(s.nvm, s.image)
    && s.nvm.meta.value.flag !in {1, 2}
  }

  lemma ScribbleKeepsRunning(s: Sys, image: seq<byte>, slot: seq<byte>, slot': seq<byte>)
    requires Running(s, image, slot) && |slot'| == APP_SIZE
    ensures Possible(s, Scribble(slot')) && Running(Next(s, Scribble(slot')), image, slot')
  {}

  /** Switched off and on again, an application with nothing waiting comes back. */
  lemma PowerCycleKeepsRunning(s: Sys, image: seq<byte>, slot: seq<byte>, cut: Cut)
    requires Running(s, image, slot) && |cut.noise| == APP_SIZE
    ensures Possible(s, PowerOff)
    ensures var off := Next(s, PowerOff);
            Possible(off, PowerOn(1, cut)) && Running(Next(off, PowerOn(1, cut)), image, slot)
  {
    var m := Machine(s.nvm, 1, true);
    CountBootKeepsInv(m, cut, Some(image));
    ChooseKeepsInv(CountBoot(m, cut), Some(image), cut);
  }

  /** An abort in download mode, and one start later the image of before is running. */
  lemma AbortLeadsToRunning(s: Sys, image: seq<byte>, cut: Cut, ops: nat, cut': Cut) returns (t: Sys)
    requires SysInv(s) && s.mode == Download && s.image == Some(image) && s.nvm.meta.value.flag == 1
    requires |cut.noise| == |cut'.noise| == APP_SIZE && ops >= 1
    ensures Possible(s, AbortInBoot(1, cut)) && Leads(Next(s, AbortInBoot(1, cut)), t)
    ensures t.mode == App && t.image == Some(image) && Holds(t.nvm.a, image)
  {
    var off := Next(s, AbortInBoot(1, cut));
    var m := Machine(s.nvm, 1, true);
    AbortRunsTheOldImage(m, image, cut, ops, cut');
    ClearFlagKeepsInv(m, s.image, cut);
    LeadsNowhere(off);
    t := Next(off, PowerOn(ops, cut'));
    LeadsOn(off, off, PowerOn(ops, cut'), t);
  }

  /** image has been committed and lies in slot B; flag tells how far it has come. */
  predicate Committing(s: Sys, mode: Mode, flag: byte, image: seq<byte>, slot: seq<byte>) {
    && s.mode == mode && s.image == Some(image) && s.nvm.b == slot && Holds(slot, image)
    && Inv(s.nvm, s.image) && s.nvm.meta.value.flag == flag
  }

  lemma CommitIsRecorded(s: Sys, old': seq<byte>, image: seq<byte>, slot: seq<byte>, id: byte, cut: Cut)
    requires Running(s, old', slot) && Holds(slot, image) && Downloaded(s.nvm, |image|, Sum32(image))
    ensures var e := CommitFromApp(|image|, Sum32(image), id, 1, cut);
            Possible(s, e) && Committing(Next(s, e), App, 2, image, slot)
  {
    AppCommitKeepsInv(Machine(s.nvm, 1, true), s.image, |image|, Sum32(image), id, cut);
  }

  lemma CommitIsPromoted(s: Sys, image: seq<byte>, slot: seq<byte>, ops: nat, cut: Cut)
    requires Committing(s, Off, 2, image, slot) && |cut.noise| == APP_SIZE && ops >= 3 + Chunks(0, |image|)
    ensures Possible(s, PowerOn(ops, cut)) && Committing(Next(s, PowerOn(ops, cut)), Off, 0, image, slot)
  {
    var m := Machine(s.nvm, ops, true);
    CountBootKeepsInv(m, cut, Some(image));
    ResumeKeepsInv(CountBoot(m, cut), image, cut);
    TouchesAOnlyFromBackup(m, cut);
  }

  lemma PromotedRuns(s: Sys, image: seq<byte>, slot: seq<byte>, ops: nat, cut: Cut)
    requires Committing(s, Off, 0, image, slot) && |cut.noise| == APP_SIZE && ops >= 1
    ensures var e := PowerOn(ops, cut);
            Possible(s, e) && Running(Next(s, e), image, slot) && Holds(Next(s, e).nvm.a, image)
  {
    var m := Machine(s.nvm, ops, true);
    CountBootKeepsInv(m, cut, Some(image));
    ChooseKeepsInv(CountBoot(m, cut), Some(image), cut);
  }

  lemma CommittedLeadsToRunning(s: Sys, image: seq<byte>, slot: seq<byte>, ops: nat, cut: Cut) returns (t: Sys)
    requires Committing(s, App, 2, image, slot) && |cut.noise| == APP_SIZE && ops >= 3 + Chunks(0, |image|)
    ensures Leads(s, t) && Running(t, image, slot) && Holds(t.nvm.a, image)
  {
    LeadsNowhere(s);
    var off := Next(s, PowerOff);
    LeadsOn(s, s, PowerOff, off);
    CommitIsPromoted(off, image, slot, ops, cut);
    var reset := Next(off, PowerOn(ops, cut));
    LeadsOn(s, off, PowerOn(ops, cut), reset);
    PromotedRuns(reset, image, slot, ops, cut);
    t := Next(reset, PowerOn(ops, cut));
    LeadsOn(s, reset, PowerOn(ops, cut), t);
  }

  /** The application commits whatever the session hands it: an image below the minimum stops the board. */
  lemma TinyCommitStopsTheBoard(m: Machine, size: nat, sum: nat, id: byte, cut: Cut, ops: nat, cut': Cut)
    requires Sized(m, cut) && m.on && m.ops >= 1 && m.nvm.meta.Some? && m.nvm.meta.value.magic && size < 16
    requires |cut'.noise| == APP_SIZE && ops >= 4
    ensures var n := AppCommit(m, size, sum, id, cut).nvm;
            && |n.a| == |n.b| == APP_SIZE
            && var r := TryBoot(Machine(n, ops, true), cut'); r.outcome == Loader && r.m.nvm.a == m.nvm.a
  {
    var again := Machine(AppCommit(m, size, sum, id, cut).nvm, ops, true);
    ChunksIsCeiling(0, size);
    PendingIsFinishedIff(again, cut');
    TouchesAOnlyFromBackup(again, cut');
  }
}

/**
  The download session of a board: address filter, command dispatcher and slot-B writer.

  The specification is a function from a session state, a received frame and the behaviour of the
  flash to the next state, the reply and the callbacks. Flash may fail at any operation and may
  leave anything in the cells it was asked to touch.
*/
module Session {
  import opened Bytes
  import opened Crc
  import opened Frames
  import opened AppImage

  const CMD_SELECT: byte := 0x06
  const CMD_START: byte := 0x08
  const CMD_DATA: byte := 0x09
  const CMD_END: byte := 0x0A
  const CMD_ABORT: byte := 0x0B
  const REPLY_FLAG: int := 0x80

  const ERR_NONE: byte := 0
  const ERR_BAD_LEN: byte := 1
  const ERR_STATE: byte := 2
  const ERR_SEQ: byte := 3
  const ERR_CRC: byte := 4
  const ERR_FLASH: byte := 5
  const ERR_SIZE: byte := 6

  /** Whether an erase or a program operation reports success, and what a faulty one leaves behind. */
  datatype FlashFate = FlashFate(eraseOk: bool, writeOk: bool, noise: seq<byte>)

  datatype State = State(
    myId: byte, selected: bool, downloading: bool,
    fwSize: nat, fwSum: nat, rxBytes: nat, expectedBlk: nat,
    upgOffset: nat, upgChecksum: nat, slot: seq<byte>)

  datatype Action = LearnId(id: byte) | Commit(size: nat, sum: nat) | Abort

  datatype Outcome = Outcome(state: State, reply: Option<Frame>, actions: seq<Action>)

  predicate SlotSized(s: State, fate: FlashFate) {
    |s.slot| == APP_SIZE == |fate.noise|
  }

  function Init(myId: byte, slot: seq<byte>): State {
    State(myId, false, false, 0, 0, 0, 0, 0, 0, slot)
  }

  // ---------- flash ----------

  /** Programming works on 32-bit words. */
  function Padded(n: nat): (r: nat)
    ensures n <= r < n + 4 && r % 4 == 0
  {
    (n + 3) / 4 * 4
  }

  /** Block k lives at 248 * k. */
  function Offset(blk: nat): nat {
    248 * blk
  }

  lemma PaddedFits(blk: nat, n: nat)
    requires Offset(blk) + n <= APP_SIZE
    ensures Offset(blk) + Padded(n) <= APP_SIZE
  {
    var words := (n + 3) / 4;
    assert 62 * blk + words <= 0x6000;
  }

  // ---------- session callbacks ----------

  datatype Attempt = Attempt(state: State, err: byte)

  function StartSession(s: State, size: nat, fate: FlashFate): Attempt {
    if size < 16 || size > APP_SIZE then Attempt(s, ERR_SIZE)
    else if !fate.eraseOk then Attempt(s.(slot := fate.noise), ERR_FLASH)
    else Attempt(s.(slot := BlankSlot(), upgOffset := 0, upgChecksum := 0), ERR_NONE)
  }

  predicate Fits(blk: nat, n: nat) {
    1 <= n && Offset(blk) + n <= APP_SIZE
  }

  /** Slot B after the block's words have been programmed, as the flash really left them. */
  function Programmed(slot: seq<byte>, blk: nat, n: nat, fate: FlashFate): (r: seq<byte>)
    requires |slot| == |fate.noise| == APP_SIZE && Fits(blk, n)
    ensures |r| == APP_SIZE
  {
    PaddedFits(blk, n);
    Patch(slot, Offset(blk), Offset(blk) + Padded(n), fate.noise)
  }

  predicate ReadsBack(slot: seq<byte>, blk: nat, data: seq<byte>)
    requires |slot| == APP_SIZE && Fits(blk, |data|)
  {
    slot[Offset(blk)..Offset(blk) + |data|] == data
  }

  function WriteBlock(s: State, blk: nat, data: seq<byte>, fate: FlashFate): Attempt
    requires SlotSized(s, fate)
  {
    if !Fits(blk, |data|) then Attempt(s, ERR_SIZE)
    else
      var written := Programmed(s.slot, blk, |data|, fate);
      if !fate.writeOk || !ReadsBack(written, blk, data) then Attempt(s.(slot := written), ERR_FLASH)
      else Attempt(
        s.(slot := written, upgOffset := Offset(blk) + |data|, upgChecksum := Wrap32(s.upgChecksum + Sum(data))),
        ERR_NONE)
  }

  // ---------- commands ----------

  function Reply(s: State, cmd: byte, err: byte, tail: seq<byte>): Option<Frame> {
    if cmd < 0x80 then Some(Frame(cmd + 0x80, [s.myId, err] + tail)) else None
  }

  function Select(s: State, body: seq<byte>): Outcome {
    if |body| != 1 || body[0] != 1 then Outcome(s, Reply(s, CMD_SELECT, ERR_BAD_LEN, []), [])
    else
      var t := s.(selected := true, downloading := false);
      Outcome(t, Reply(t, CMD_SELECT, ERR_NONE, []), [])
  }

  function Start(s: State, body: seq<byte>, fate: FlashFate): Outcome {
    if !s.selected || |body| != 8 then
      Outcome(s, Reply(s, CMD_START, if s.selected then ERR_BAD_LEN else ERR_STATE, []), [])
    else
      var a := Begin(s, LE32(body[..4]), LE32(body[4..]), fate);
      Outcome(a.state, Reply(a.state, CMD_START, a.err, []), [])
  }

  /** The declared size and sum are recorded and the counters restarted before START is judged. */
  function Begin(s: State, size: nat, sum: nat, fate: FlashFate): Attempt {
    var a := StartSession(s.(fwSize := size, fwSum := sum, expectedBlk := 0, rxBytes := 0), size, fate);
    if a.err == ERR_NONE then a.(state := a.state.(downloading := true)) else a
  }

  function Data(s: State, body: seq<byte>, fate: FlashFate): Outcome
    requires SlotSized(s, fate)
  {
    if !s.downloading || |body| < 4 then Outcome(s, Reply(s, CMD_DATA, ERR_STATE, [0, 0]), [])
    else
      var blk, data := LE16(body[..2]), body[4..];
      var a := DataAttempt(s, blk, Crc16(data) == LE16(body[2..4]), data, fate);
      Outcome(a.state, Reply(a.state, CMD_DATA, a.err, body[..2]), [])
  }

  function DataAttempt(s: State, blk: nat, intact: bool, data: seq<byte>, fate: FlashFate): Attempt
    requires SlotSized(s, fate)
  {
    if !intact then Attempt(s, ERR_CRC)
    else if blk == s.expectedBlk then
      var a := WriteBlock(s, blk, data, fate);
      if a.err != ERR_NONE then a
      else Attempt(
        a.state.(expectedBlk := Next16(s.expectedBlk), rxBytes := Wrap32(s.rxBytes + |data|)), ERR_NONE)
    else if blk + 1 == s.expectedBlk then Attempt(s, ERR_NONE)
    else Attempt(s, ERR_SEQ)
  }

  function End(s: State): Outcome {
    var err := if !s.downloading then ERR_STATE else if s.rxBytes != s.fwSize then ERR_SIZE else ERR_NONE;
    var actions :=
      if err != ERR_NONE then []
      else if s.fwSize != s.upgOffset then [Abort]
      else [Commit(s.upgOffset, s.upgChecksum)];
    Outcome(s, Reply(s, CMD_END, err, []), actions)
  }

  function TargetOf(f: Frame): byte {
    if |f.payload| >= 1 then f.payload[0] else 0xFF
  }

  /** A board without an identity listens to everything; the others to themselves and to broadcasts. */
  predicate Addressed(s: State, f: Frame) {
    s.myId == 0 || TargetOf(f) == s.myId || TargetOf(f) == 0
  }

  function Identified(s: State, f: Frame): State {
    if s.myId == 0 then s.(myId := TargetOf(f)) else s
  }

  function Obey(s: State, cmd: byte, body: seq<byte>, fate: FlashFate): Outcome
    requires SlotSized(s, fate)
  {
    if cmd == CMD_SELECT then Select(s, body)
    else if cmd == CMD_START then Start(s, body, fate)
    else if cmd == CMD_DATA then Data(s, body, fate)
    else if cmd == CMD_END then End(s)
    else if cmd == CMD_ABORT then Outcome(s, Reply(s, CMD_ABORT, ERR_NONE, []), [Abort])
    else Outcome(s, None, [])
  }

  function BodyOf(f: Frame): seq<byte> {
    if |f.payload| >= 1 then f.payload[1..] else []
  }

  function Dispatch(s: State, f: Frame, fate: FlashFate): Outcome
    requires SlotSized(s, fate)
  {
    if !Addressed(s, f) then Outcome(s, None, [])
    else
      var t := Identified(s, f);
      var o := Obey(t, f.cmd, BodyOf(f), fate);
      if t.myId != s.myId then o.(actions := [LearnId(t.myId)] + o.actions) else o
  }

  // ---------- an observer of one download ----------

  /**
    What a bystander records: the blocks acknowledged for the first time since the last START that
    was examined, whether that START was accepted, and the running totals it left in place if not.
  */
  datatype Track = Track(accepted: bool, staleSum: nat, staleOffset: nat, blocks: seq<seq<byte>>)

  const NEW_TRACK := Track(false, 0, 0, [])

  predicate ExaminesStart(s: State, f: Frame) {
    Addressed(s, f) && f.cmd == CMD_START && s.selected && |BodyOf(f)| == 8
  }

  predicate OffersNextBlock(s: State, f: Frame) {
    && Addressed(s, f) && f.cmd == CMD_DATA && s.downloading && |BodyOf(f)| >= 4
    && LE16(BodyOf(f)[..2]) == s.expectedBlk
  }

  predicate Succeeds(o: Outcome) {
    o.reply.Some? && |o.reply.value.payload| >= 2 && o.reply.value.payload[1] == ERR_NONE
  }

  function Observe(t: Track, s: State, f: Frame, fate: FlashFate): Track
    requires SlotSized(s, fate)
  {
    if ExaminesStart(s, f) then
      if Succeeds(Dispatch(s, f, fate)) then Track(true, 0, 0, [])
      else Track(false, s.upgChecksum, s.upgOffset, [])
    else if OffersNextBlock(s, f) && Succeeds(Dispatch(s, f, fate)) then
      t.(blocks := t.blocks + [BodyOf(f)[4..]])
    else t
  }

  function Concat(blocks: seq<seq<byte>>): seq<byte> {
    if blocks == [] then [] else Concat(blocks[..|blocks| - 1]) + blocks[|blocks| - 1]
  }

  /** End of the last block at its nominal position. */
  function Extent(blocks: seq<seq<byte>>): nat {
    if blocks == [] then 0 else Offset(|blocks| - 1) + |blocks[|blocks| - 1]|
  }

  ghost predicate AllButLastFull(blocks: seq<seq<byte>>) {
    forall i :: 0 <= i < |blocks| - 1 ==> |blocks[i]| == 248
  }

  ghost predicate BlockInSlot(slot: seq<byte>, i: nat, block: seq<byte>) {
    Offset(i) + |block| <= |slot| && slot[Offset(i)..Offset(i) + |block|] == block
  }

  ghost predicate BlocksInSlot(slot: seq<byte>, blocks: seq<seq<byte>>) {
    forall i :: 0 <= i < |blocks| ==> 1 <= |blocks[i]| <= DATA_MAX && BlockInSlot(slot, i, blocks[i])
  }

  ghost predicate Inv(s: State, t: Track) {
    && |s.slot| == APP_SIZE
    && BlocksInSlot(s.slot, t.blocks)
    && s.expectedBlk == |t.blocks|
    && s.rxBytes == |Concat(t.blocks)|
    && s.upgOffset == (if t.blocks == [] then t.staleOffset else Extent(t.blocks))
    && s.upgChecksum == Wrap32(t.staleSum + Sum(Concat(t.blocks)))
    && (t.accepted ==> t.staleSum == 0 && t.staleOffset == 0 && 16 <= s.fwSize <= APP_SIZE)
  }

  // ---------- the invariant holds on every run ----------

  lemma DispatchObeys(s: State, f: Frame, fate: FlashFate)
    requires SlotSized(s, fate) && Addressed(s, f)
    ensures var o := Obey(Identified(s, f), f.cmd, BodyOf(f), fate);
            Dispatch(s, f, fate).state == o.state && Dispatch(s, f, fate).reply == o.reply
  {}

  lemma BeginKeepsInv(s: State, t: Track, size: nat, sum: nat, fate: FlashFate)
    requires Inv(s, t) && SlotSized(s, fate)
    ensures var a := Begin(s, size, sum, fate);
            Inv(a.state,
                if a.err == ERR_NONE then Track(true, 0, 0, []) else Track(false, s.upgChecksum, s.upgOffset, []))
  {}

  lemma StartObeyed(s: State, f: Frame, fate: FlashFate)
    requires SlotSized(s, fate) && ExaminesStart(s, f)
    ensures var a := Begin(Identified(s, f), LE32(BodyOf(f)[..4]), LE32(BodyOf(f)[4..]), fate);
            && Dispatch(s, f, fate).state == a.state
            && (Succeeds(Dispatch(s, f, fate)) <==> a.err == ERR_NONE)
  {
    DispatchObeys(s, f, fate);
  }

  lemma StartKeepsInv(s: State, t: Track, f: Frame, fate: FlashFate)
    requires Inv(s, t) && SlotSized(s, fate)
    requires ExaminesStart(s, f)
    ensures Inv(Dispatch(s, f, fate).state, Observe(t, s, f, fate))
  {
    StartObeyed(s, f, fate);
    BeginKeepsInv(Identified(s, f), t, LE32(BodyOf(f)[..4]), LE32(BodyOf(f)[4..]), fate);
  }

  lemma WrapAccumulates(stale: nat, blocks: seq<seq<byte>>, data: seq<byte>)
    ensures Wrap32(Wrap32(stale + Sum(Concat(blocks))) + Sum(data)) == Wrap32(stale + Sum(Concat(blocks + [data])))
  {
    var more := blocks + [data];
    assert more[..|more| - 1] == blocks;
    SumAppend(Concat(blocks), data);
    WrapAdd(stale + Sum(Concat(blocks)), Sum(data));
  }

  lemma BlockCountBounded(slot: seq<byte>, blocks: seq<seq<byte>>)
    requires |slot| == APP_SIZE && BlocksInSlot(slot, blocks)
    ensures |blocks| <= 397 && |Concat(blocks)| <= APP_SIZE + DATA_MAX
  {
    if blocks != [] {
      var n := |blocks| - 1;
      assert BlockInSlot(slot, n, blocks[n]);
      ConcatBounded(blocks);
    }
  }

  lemma {:induction false} ConcatBounded(blocks: seq<seq<byte>>)
    requires forall i :: 0 <= i < |blocks| ==> |blocks[i]| <= DATA_MAX
    ensures |Concat(blocks)| <= Extent(blocks)
  {
    if |blocks| > 1 {
      ConcatBounded(blocks[..|blocks| - 1]);
    }
  }

  /** Programming a block at or beyond the next position disturbs none of the earlier ones. */
  lemma EarlierBlocksSurvive(slot: seq<byte>, blocks: seq<seq<byte>>, n: nat, fate: FlashFate)
    requires |slot| == |fate.noise| == APP_SIZE && BlocksInSlot(slot, blocks)
    requires Fits(|blocks|, n)
    ensures BlocksInSlot(Programmed(slot, |blocks|, n, fate), blocks)
  {
    var written := Programmed(slot, |blocks|, n, fate);
    forall i | 0 <= i < |blocks| ensures BlockInSlot(written, i, blocks[i]) {
      assert BlockInSlot(slot, i, blocks[i]);
      var a, b := Offset(i), Offset(i) + |blocks[i]|;
      assert b <= Offset(|blocks|);
      assert written[a..b] == slot[a..b];
    }
  }

  lemma NextBlockInSlot(slot: seq<byte>, blocks: seq<seq<byte>>, data: seq<byte>)
    requires |slot| == APP_SIZE && BlocksInSlot(slot, blocks)
    requires |data| <= DATA_MAX && Fits(|blocks|, |data|) && ReadsBack(slot, |blocks|, data)
    ensures BlocksInSlot(slot, blocks + [data])
  {}

  lemma CountersDoNotWrap(blocks: seq<seq<byte>>, data: seq<byte>)
    requires |blocks| <= 397 && |Concat(blocks)| <= APP_SIZE + DATA_MAX && |data| <= DATA_MAX
    ensures Next16(|blocks|) == |blocks + [data]|
    ensures Wrap32(|Concat(blocks)| + |data|) == |Concat(blocks + [data])|
    ensures Extent(blocks + [data]) == Offset(|blocks|) + |data|
  {
    var more := blocks + [data];
    assert more[..|more| - 1] == blocks;
  }

  function Accepted(s: State, blk: nat, data: seq<byte>, slot: seq<byte>): State {
    s.(slot := slot, upgOffset := Offset(blk) + |data|, upgChecksum := Wrap32(s.upgChecksum + Sum(data)),
       expectedBlk := Next16(s.expectedBlk), rxBytes := Wrap32(s.rxBytes + |data|))
  }

  lemma AcceptedBlockKeepsInv(s: State, t: Track, data: seq<byte>, slot: seq<byte>)
    requires Inv(s, t)
    requires 1 <= |data| <= DATA_MAX && |slot| == APP_SIZE
    requires BlocksInSlot(slot, t.blocks + [data])
    ensures Inv(Accepted(s, |t.blocks|, data, slot), t.(blocks := t.blocks + [data]))
  {
    BlockCountBounded(s.slot, t.blocks);
    CountersDoNotWrap(t.blocks, data);
    WrapAccumulates(t.staleSum, t.blocks, data);
  }

  /** An intact block written and read back successfully. */
  lemma AttemptSucceeds(s: State, blk: nat, intact: bool, data: seq<byte>, fate: FlashFate)
    requires SlotSized(s, fate) && blk == s.expectedBlk
    requires DataAttempt(s, blk, intact, data, fate).err == ERR_NONE
    ensures Fits(blk, |data|)
    ensures var written := Programmed(s.slot, blk, |data|, fate);
            ReadsBack(written, blk, data)
            && DataAttempt(s, blk, intact, data, fate).state == Accepted(s, blk, data, written)
  {}

  /** A refused block changes nothing, or only the cells it addressed. */
  lemma AttemptFails(s: State, blk: nat, intact: bool, data: seq<byte>, fate: FlashFate)
    requires SlotSized(s, fate) && blk == s.expectedBlk
    requires DataAttempt(s, blk, intact, data, fate).err != ERR_NONE
    ensures var u := DataAttempt(s, blk, intact, data, fate).state;
            u == s || (Fits(blk, |data|) && u == s.(slot := Programmed(s.slot, blk, |data|, fate)))
  {}

  lemma AttemptKeepsInv(s: State, t: Track, intact: bool, data: seq<byte>, fate: FlashFate)
    requires Inv(s, t) && SlotSized(s, fate)
    requires |data| <= DATA_MAX
    ensures var a := DataAttempt(s, s.expectedBlk, intact, data, fate);
            Inv(a.state, if a.err == ERR_NONE then t.(blocks := t.blocks + [data]) else t)
  {
    var blk := s.expectedBlk;
    if DataAttempt(s, blk, intact, data, fate).err == ERR_NONE {
      AttemptSucceeds(s, blk, intact, data, fate);
      EarlierBlocksSurvive(s.slot, t.blocks, |data|, fate);
      NextBlockInSlot(Programmed(s.slot, blk, |data|, fate), t.blocks, data);
      AcceptedBlockKeepsInv(s, t, data, Programmed(s.slot, blk, |data|, fate));
    } else {
      AttemptFails(s, blk, intact, data, fate);
      if DataAttempt(s, blk, intact, data, fate).state != s {
        EarlierBlocksSurvive(s.slot, t.blocks, |data|, fate);
      }
    }
  }

  lemma OtherAttemptKeepsState(s: State, blk: nat, intact: bool, data: seq<byte>, fate: FlashFate)
    requires SlotSized(s, fate) && blk != s.expectedBlk
    ensures DataAttempt(s, blk, intact, data, fate).state == s
  {}

  lemma DataObeyed(s: State, f: Frame, fate: FlashFate)
    requires SlotSized(s, fate)
    requires Addressed(s, f) && f.cmd == CMD_DATA && s.downloading && |BodyOf(f)| >= 4
    ensures var body := BodyOf(f);
            var u := Identified(s, f);
            var a := DataAttempt(u, LE16(body[..2]), Crc16(body[4..]) == LE16(body[2..4]), body[4..], fate);
            && Dispatch(s, f, fate).state == a.state
            && (Succeeds(Dispatch(s, f, fate)) <==> a.err == ERR_NONE)
  {
    DispatchObeys(s, f, fate);
  }

  lemma DataKeepsInv(s: State, t: Track, f: Frame, fate: FlashFate)
    requires Inv(s, t) && SlotSized(s, fate)
    requires Addressed(s, f) && f.cmd == CMD_DATA && |f.payload| <= PAYLOAD_MAX
    ensures Inv(Dispatch(s, f, fate).state, Observe(t, s, f, fate))
  {
    var u, body := Identified(s, f), BodyOf(f);
    if u.downloading && |body| >= 4 {
      DataObeyed(s, f, fate);
      var blk, intact, data := LE16(body[..2]), Crc16(body[4..]) == LE16(body[2..4]), body[4..];
      if blk == u.expectedBlk {
        AttemptKeepsInv(u, t, intact, data, fate);
      } else {
        OtherAttemptKeepsState(u, blk, intact, data, fate);
      }
    } else {
      DispatchObeys(s, f, fate);
    }
  }

  lemma OtherKeepsInv(s: State, t: Track, f: Frame, fate: FlashFate)
    requires Inv(s, t) && SlotSized(s, fate)
    requires !ExaminesStart(s, f) && !(Addressed(s, f) && f.cmd == CMD_DATA)
    ensures Inv(Dispatch(s, f, fate).state, t) && Observe(t, s, f, fate) == t
  {
    if Addressed(s, f) {
      DispatchObeys(s, f, fate);
    }
  }

  /** Every frame, with any flash behaviour, keeps the session and the bystander's record in step. */
  lemma DispatchKeepsInv(s: State, t: Track, f: Frame, fate: FlashFate)
    requires Inv(s, t) && SlotSized(s, fate)
    requires |f.payload| <= PAYLOAD_MAX
    ensures Inv(Dispatch(s, f, fate).state, Observe(t, s, f, fate))
  {
    if ExaminesStart(s, f) {
      StartKeepsInv(s, t, f, fate);
    } else if Addressed(s, f) && f.cmd == CMD_DATA {
      DataKeepsInv(s, t, f, fate);
    } else {
      OtherKeepsInv(s, t, f, fate);
    }
  }

  // ---------- no gaps at commit ----------

  /** The two length tests agree exactly when no block but the last is short. */
  lemma {:induction false} NoGaps(blocks: seq<seq<byte>>)
    requires forall i :: 0 <= i < |blocks| ==> 1 <= |blocks[i]| <= DATA_MAX
    ensures |Concat(blocks)| == Extent(blocks) <==> AllButLastFull(blocks)
  {
    if |blocks| > 1 {
      var n := |blocks| - 1;
      var front := blocks[..n];
      NoGaps(front);
      ConcatBounded(front);
      if AllButLastFull(blocks) {
        assert AllButLastFull(front);
        assert |blocks[n - 1]| == DATA_MAX;
      } else if |Concat(blocks)| == Extent(blocks) {
        assert |front[n - 1]| == DATA_MAX;
        forall i | 0 <= i < n ensures |blocks[i]| == DATA_MAX {
          assert blocks[i] == front[i];
        }
      }
    }
  }

  lemma {:induction false} SlotHoldsConcat(slot: seq<byte>, blocks: seq<seq<byte>>)
    requires |slot| == APP_SIZE && BlocksInSlot(slot, blocks) && AllButLastFull(blocks)
    ensures Extent(blocks) <= APP_SIZE && slot[..Extent(blocks)] == Concat(blocks)
  {
    if blocks != [] {
      var n := |blocks| - 1;
      var front := blocks[..n];
      assert BlockInSlot(slot, n, blocks[n]);
      forall i | 0 <= i < n ensures 1 <= |front[i]| <= DATA_MAX && BlockInSlot(slot, i, front[i]) {
        assert BlockInSlot(slot, i, blocks[i]);
      }
      assert AllButLastFull(front);
      SlotHoldsConcat(slot, front);
      var a, b := Extent(front), Extent(blocks);
      assert a == Offset(n) by {
        if n > 0 {
          assert front[n - 1] == blocks[n - 1];
        }
      }
      assert slot[..b] == slot[..a] + slot[a..b];
    }
  }

  /**
    What a commit means, for arbitrary frames and arbitrary flash faults: slot B holds exactly the
    acknowledged blocks end to end, and the committed checksum is theirs plus whatever a rejected
    START left in the accumulator. After an accepted START it is the image's own checksum.
  */
  lemma CommitIsTheImage(s: State, t: Track, f: Frame, fate: FlashFate, size: nat, sum: nat)
    requires Inv(s, t) && SlotSized(s, fate)
    requires Commit(size, sum) in Dispatch(s, f, fate).actions
    ensures f.cmd == CMD_END && s.downloading && size == s.fwSize <= APP_SIZE
    ensures AllButLastFull(t.blocks)
    ensures s.slot[..size] == Concat(t.blocks)
    ensures sum == Wrap32(t.staleSum + Sum(s.slot[..size]))
    ensures sum == Sum32(s.slot[..size]) <==> Wrap32(t.staleSum) == 0
    ensures t.accepted ==> 16 <= size && sum == Sum32(s.slot[..size])
  {
    CommitComesFromEnd(s, f, fate, size, sum);
    NoGaps(t.blocks);
    SlotHoldsConcat(s.slot, t.blocks);
    WrapShift(t.staleSum, Sum(s.slot[..size]));
  }

  lemma CommitComesFromEnd(s: State, f: Frame, fate: FlashFate, size: nat, sum: nat)
    requires SlotSized(s, fate)
    requires Commit(size, sum) in Dispatch(s, f, fate).actions
    ensures Addressed(s, f) && f.cmd == CMD_END && s.downloading
    ensures s.rxBytes == s.fwSize == s.upgOffset == size && sum == s.upgChecksum
  {
    var o := Obey(Identified(s, f), f.cmd, BodyOf(f), fate);
    assert Commit(size, sum) in o.actions;
  }

  /** An END frame commits exactly when a download is on, every byte has arrived and no block was short. */
  lemma EndCommitsExactly(s: State, t: Track, f: Frame, fate: FlashFate)
    requires Inv(s, t) && SlotSized(s, fate)
    requires t.accepted && Addressed(s, f) && f.cmd == CMD_END
    ensures (exists size, sum :: Commit(size, sum) in Dispatch(s, f, fate).actions)
       <==> s.downloading && |Concat(t.blocks)| == s.fwSize && AllButLastFull(t.blocks)
    ensures Abort in Dispatch(s, f, fate).actions
       <==> s.downloading && |Concat(t.blocks)| == s.fwSize && !AllButLastFull(t.blocks)
  {
    NoGaps(t.blocks);
    var o := Dispatch(s, f, fate);
    if s.downloading && |Concat(t.blocks)| == s.fwSize && AllButLastFull(t.blocks) {
      assert Commit(s.upgOffset, s.upgChecksum) in o.actions;
    }
  }

  // ---------- retransmission ----------

  lemma AcceptedAdvances(s: State, blk: nat, intact: bool, data: seq<byte>, fate: FlashFate)
    requires SlotSized(s, fate) && DataAttempt(s, blk, intact, data, fate).err == ERR_NONE
    ensures intact && blk + 1 == DataAttempt(s, blk, intact, data, fate).state.expectedBlk
  {
    if blk == s.expectedBlk {
      AttemptSucceeds(s, blk, intact, data, fate);
      assert blk < 65535;
    }
  }

  lemma RepeatedAttempt(s: State, blk: nat, data: seq<byte>, fate: FlashFate)
    requires SlotSized(s, fate) && blk + 1 == s.expectedBlk
    ensures DataAttempt(s, blk, true, data, fate) == Attempt(s, ERR_NONE)
  {}

  lemma DataAnswered(s: State, f: Frame, fate: FlashFate)
    requires SlotSized(s, fate)
    requires Addressed(s, f) && f.cmd == CMD_DATA && s.downloading && |BodyOf(f)| >= 4
    ensures var body := BodyOf(f);
            var intact := Crc16(body[4..]) == LE16(body[2..4]);
            var a := DataAttempt(Identified(s, f), LE16(body[..2]), intact, body[4..], fate);
            Dispatch(s, f, fate).reply == Reply(a.state, CMD_DATA, a.err, body[..2])
  {
    DispatchObeys(s, f, fate);
  }

  /** A block acknowledged once is acknowledged again, with the same reply and no change, whatever the flash does. */
  lemma RetransmissionIsHarmless(s: State, f: Frame, fate: FlashFate, again: FlashFate)
    requires SlotSized(s, fate) && SlotSized(s, again)
    requires f.cmd == CMD_DATA && s.downloading && |BodyOf(f)| >= 4
    requires Addressed(s, f) && Succeeds(Dispatch(s, f, fate))
    ensures var o := Dispatch(s, f, fate);
            SlotSized(o.state, again) && Dispatch(o.state, f, again).state == o.state
            && Dispatch(o.state, f, again).reply == o.reply
  {
    var body := BodyOf(f);
    var blk, intact, data := LE16(body[..2]), Crc16(body[4..]) == LE16(body[2..4]), body[4..];
    var u := Identified(s, f);
    DataObeyed(s, f, fate);
    DataAnswered(s, f, fate);
    AcceptedAdvances(u, blk, intact, data, fate);
    AttemptKeepsFlags(u, blk, intact, data, fate);
    var t := Dispatch(s, f, fate).state;
    DataObeyed(t, f, again);
    DataAnswered(t, f, again);
    RepeatedAttempt(t, blk, data, again);
  }

  lemma AttemptKeepsFlags(s: State, blk: nat, intact: bool, data: seq<byte>, fate: FlashFate)
    requires SlotSized(s, fate)
    ensures var u := DataAttempt(s, blk, intact, data, fate).state;
            u.myId == s.myId && u.downloading == s.downloading && |u.slot| == APP_SIZE
  {}

  /**
    END changes nothing but a missing identity, so it can be repeated: it draws the same reply, and the same
    commit or abort again.
  */
  lemma EndRepeats(s: State, f: Frame, fate: FlashFate, again: FlashFate)
    requires SlotSized(s, fate) && SlotSized(s, again) && Addressed(s, f) && f.cmd == CMD_END
    ensures var o := Dispatch(s, f, fate);
            && o.state == Identified(s, f) && SlotSized(o.state, again)
            && var p := Dispatch(o.state, f, again);
               && p.state == o.state && p.reply == o.reply
               && p.actions == (if !s.downloading || s.rxBytes != s.fwSize then []
                                else if s.fwSize != s.upgOffset then [Abort]
                                else [Commit(s.upgOffset, s.upgChecksum)])
               && forall a :: a in p.actions ==> a in o.actions
  {
    DispatchObeys(s, f, fate);
    EndObeyed(s, f, fate);
    EndObeyed(Identified(s, f), f, again);
  }

  lemma EndObeyed(s: State, f: Frame, fate: FlashFate)
    requires SlotSized(s, fate) && Addressed(s, f) && f.cmd == CMD_END
    ensures var e, o := End(Identified(s, f)), Dispatch(s, f, fate);
            && o.state == e.state && o.reply == e.reply
            && o.actions == if Identified(s, f).myId != s.myId then [LearnId(TargetOf(f))] + e.actions else e.actions
  {}

  // ---------- what each command answers and leads to ----------

  /** The error octet of a reply. */
  predicate Answers(o: Outcome, err: int) {
    o.reply.Some? && |o.reply.value.payload| >= 2 && o.reply.value.payload[1] == err
  }

  lemma PayloadField(p: seq<byte>, i: nat)
    requires 1 <= |p| && 1 <= i && i + 4 <= |p|
    ensures LE32(p[1..][i - 1..i + 3]) == Word32(p, i)
  {
    assert p[1..][i - 1..i + 3] == p[i..i + 4];
  }

  /** SELECT asks for exactly the target and the octet 1; granted, it ends any download. */
  lemma SelectVerdict(s: State, f: Frame, fate: FlashFate)
    requires SlotSized(s, fate) && Addressed(s, f) && f.cmd == 0x06
    ensures var o := Dispatch(s, f, fate);
            if |f.payload| == 2 && f.payload[1] == 1
            then Answers(o, 0) && o.state == Identified(s, f).(selected := true, downloading := false)
            else Answers(o, 1) && o.state == Identified(s, f)
  {
    DispatchObeys(s, f, fate);
  }

  lemma StartAnswered(s: State, f: Frame, fate: FlashFate)
    requires SlotSized(s, fate) && Addressed(s, f) && f.cmd == 0x08
    ensures var o, u, body := Dispatch(s, f, fate), Identified(s, f), BodyOf(f);
            if !u.selected || |body| != 8 then Answers(o, if u.selected then 1 else 2) && o.state == u
            else
              var a := Begin(u, LE32(body[..4]), LE32(body[4..]), fate);
              Answers(o, a.err as int) && o.state == a.state
  {
    DispatchObeys(s, f, fate);
  }

  lemma BeginVerdict(s: State, size: nat, sum: nat, fate: FlashFate)
    requires SlotSized(s, fate)
    ensures var a := Begin(s, size, sum, fate);
            && a.err == (if size < 16 || size > 98304 then 6 else if !fate.eraseOk then 5 else 0)
            && (a.err == 0 ==> a.state.downloading && a.state.slot == BlankSlot()
                               && a.state.upgOffset == a.state.upgChecksum == 0)
            && (a.err != 0 ==> a.state.downloading == s.downloading)
            && (a.err == 5 ==> a.state.slot == fate.noise) && (a.err == 6 ==> a.state.slot == s.slot)
            && a.state.fwSize == size && a.state.fwSum == sum && a.state.rxBytes == a.state.expectedBlk == 0
  {}

  /** START is granted exactly to a selected board, for eight octets, a legal size and a successful erase. */
  lemma StartVerdict(s: State, f: Frame, fate: FlashFate)
    requires SlotSized(s, fate) && Addressed(s, f) && f.cmd == 0x08
    ensures var o, n := Dispatch(s, f, fate), |f.payload|;
            && Answers(o, if !s.selected then 2 else if n != 9 then 1
                          else if !(16 <= Word32(f.payload, 1) <= 98304) then 6
                          else if !fate.eraseOk then 5 else 0)
            && (s.selected && n == 9 ==>
                  && o.state.fwSize == Word32(f.payload, 1) && o.state.fwSum == Word32(f.payload, 5)
                  && o.state.rxBytes == o.state.expectedBlk == 0
                  && (Answers(o, 5) ==> o.state.slot == fate.noise)
                  && (Answers(o, 0) ==> o.state.downloading && o.state.slot == BlankSlot()
                                        && o.state.upgOffset == o.state.upgChecksum == 0))
            && (!s.selected || n != 9 ==> o.state == Identified(s, f))
  {
    StartAnswered(s, f, fate);
    if s.selected && |f.payload| == 9 {
      var body := BodyOf(f);
      PayloadField(f.payload, 1);
      PayloadField(f.payload, 5);
      assert body[..4] == f.payload[1..][0..4] && body[4..] == f.payload[1..][4..8];
      BeginVerdict(Identified(s, f), LE32(body[..4]), LE32(body[4..]), fate);
    }
  }

  lemma AttemptVerdict(s: State, blk: nat, intact: bool, data: seq<byte>, fate: FlashFate)
    requires SlotSized(s, fate)
    ensures var a := DataAttempt(s, blk, intact, data, fate);
            && a.err == (if !intact then 4
                         else if blk + 1 == s.expectedBlk then 0
                         else if blk != s.expectedBlk then 3
                         else if |data| == 0 || 248 * blk + |data| > 98304 then 6
                         else if !fate.writeOk || fate.noise[248 * blk..248 * blk + |data|] != data then 5
                         else 0)
            && (blk != s.expectedBlk ==> a.state == s)
            && (intact && blk == s.expectedBlk && data != [] && 248 * blk + |data| <= 98304 ==>
                  LeavesWhatFlashHolds(s.slot, a.state.slot, 248 * blk, |data|, fate))
  {
    if blk == s.expectedBlk && Fits(blk, |data|) {
      ProgrammedReadsNoise(s.slot, blk, |data|, fate);
    }
  }

  lemma ProgrammedReadsNoise(slot: seq<byte>, blk: nat, n: nat, fate: FlashFate)
    requires |slot| == |fate.noise| == APP_SIZE && Fits(blk, n)
    ensures LeavesWhatFlashHolds(slot, Programmed(slot, blk, n, fate), 248 * blk, n, fate)
  {
    PaddedFits(blk, n);
    var lo, hi := Offset(blk), Offset(blk) + n;
    var written := Programmed(slot, blk, n, fate);
    forall i | lo <= i < hi ensures written[i] == fate.noise[i] {}
    assert written[..lo] == slot[..lo];
  }

  /** n cells from lo on are what the flash made of them, those before are untouched. */
  predicate LeavesWhatFlashHolds(before: seq<byte>, after: seq<byte>, lo: nat, n: nat, fate: FlashFate) {
    && lo + n <= |after| == |before| == |fate.noise|
    && after[lo..lo + n] == fate.noise[lo..lo + n] && after[..lo] == before[..lo]
  }

  /**
    DATA needs an open download, an intact block and the next number, or the one just taken; then its
    octets must fit the slot and be what the flash really holds afterwards. The reply echoes the number.
  */
  lemma DataVerdict(s: State, f: Frame, fate: FlashFate)
    requires SlotSized(s, fate) && Addressed(s, f) && f.cmd == 0x09
    ensures var o, p := Dispatch(s, f, fate), f.payload;
            if !s.downloading || |p| < 5 then Answers(o, 2) && o.reply.value.payload[2..] == [0, 0]
            else
              var blk, data := p[1] as int + 256 * p[2] as int, p[5..];
              && Answers(o, if Crc16(data) != p[3] as int + 256 * p[4] as int then 4
                            else if blk + 1 == s.expectedBlk then 0
                            else if blk != s.expectedBlk then 3
                            else if |data| == 0 || 248 * blk + |data| > 98304 then 6
                            else if !fate.writeOk || fate.noise[248 * blk..248 * blk + |data|] != data then 5
                            else 0)
              && o.reply.value.payload[2..] == p[1..3]
              && (blk != s.expectedBlk ==> o.state == Identified(s, f))
              && (Crc16(data) == p[3] as int + 256 * p[4] as int && blk == s.expectedBlk
                  && data != [] && 248 * blk + |data| <= 98304 ==>
                    LeavesWhatFlashHolds(s.slot, o.state.slot, 248 * blk, |data|, fate))
  {
    if s.downloading && |f.payload| >= 5 {
      var body, u := BodyOf(f), Identified(s, f);
      var blk, intact := LE16(body[..2]), Crc16(body[4..]) == LE16(body[2..4]);
      assert body[4..] == f.payload[5..] && body[..2] == f.payload[1..3];
      DataObeyed(s, f, fate);
      DataAnswered(s, f, fate);
      AttemptVerdict(u, blk, intact, body[4..], fate);
    } else {
      DispatchObeys(s, f, fate);
    }
  }

  /** END is acknowledged exactly when the declared number of octets has arrived in an open download. */
  lemma EndVerdict(s: State, f: Frame, fate: FlashFate)
    requires SlotSized(s, fate) && Addressed(s, f) && f.cmd == 0x0A
    ensures Answers(Dispatch(s, f, fate), if !s.downloading then 2 else if s.rxBytes != s.fwSize then 6 else 0)
  {
    DispatchObeys(s, f, fate);
  }

  /** ABORT is acknowledged, aborts and commits nothing; it changes only a missing identity. */
  lemma AbortVerdict(s: State, f: Frame, fate: FlashFate)
    requires SlotSized(s, fate) && Addressed(s, f) && f.cmd == 0x0B
    ensures var o := Dispatch(s, f, fate);
            && Answers(o, 0) && Abort in o.actions && o.state == Identified(s, f)
            && forall a :: a in o.actions ==> !a.Commit?
  {
    DispatchObeys(s, f, fate);
    var o := Obey(Identified(s, f), f.cmd, BodyOf(f), fate);
    assert o.actions == [Abort];
  }

  lemma ActionsOf(s: State, f: Frame, fate: FlashFate)
    requires SlotSized(s, fate)
    ensures var o, u := Dispatch(s, f, fate), Identified(s, f);
            o.actions == if !Addressed(s, f) then []
                         else (if u.myId != s.myId then [LearnId(u.myId)] else [])
                              + Obey(u, f.cmd, BodyOf(f), fate).actions
  {}

  lemma ObeyActions(s: State, cmd: byte, body: seq<byte>, fate: FlashFate)
    requires SlotSized(s, fate)
    ensures Obey(s, cmd, body, fate).actions ==
            if cmd == 0x0B then [Abort]
            else if cmd != 0x0A || !s.downloading || s.rxBytes != s.fwSize then []
            else if s.fwSize == s.upgOffset then [Commit(s.upgOffset, s.upgChecksum)] else [Abort]
  {}

  /** A board aborts on an addressed ABORT, on an addressed END that finds the lengths apart, and on nothing else. */
  lemma AbortsIff(s: State, f: Frame, fate: FlashFate)
    requires SlotSized(s, fate)
    ensures Abort in Dispatch(s, f, fate).actions <==>
              Addressed(s, f) && (|| f.cmd == 0x0B
                                  || (f.cmd == 0x0A && s.downloading && s.rxBytes == s.fwSize != s.upgOffset))
  {
    ActionsOf(s, f, fate);
    ObeyActions(Identified(s, f), f.cmd, BodyOf(f), fate);
  }

  /** A board without an identity takes the first one it is addressed by, once, and says so; the others keep theirs. */
  lemma LearnsIdentity(s: State, f: Frame, fate: FlashFate, id: byte)
    requires SlotSized(s, fate)
    ensures var o := Dispatch(s, f, fate);
            var target: int := if |f.payload| >= 1 then f.payload[0] else 0xFF;
            && o.state.myId == (if s.myId == 0 then target else s.myId)
            && (LearnId(id) in o.actions <==> s.myId == 0 && id == target != 0)
  {
    ActionsOf(s, f, fate);
    ObeyActions(Identified(s, f), f.cmd, BodyOf(f), fate);
    if Addressed(s, f) {
      ObeyKeepsIdentity(Identified(s, f), f.cmd, BodyOf(f), fate);
    }
  }

  lemma ObeyKeepsIdentity(s: State, cmd: byte, body: seq<byte>, fate: FlashFate)
    requires SlotSized(s, fate)
    ensures Obey(s, cmd, body, fate).state.myId == s.myId
  {
    if cmd == CMD_DATA && s.downloading && |body| >= 4 {
      AttemptKeepsIdentity(s, LE16(body[..2]), Crc16(body[4..]) == LE16(body[2..4]), body[4..], fate);
    }
  }

  /** A board replies to each of the five commands addressed to it, and to nothing else. */
  lemma RepliesIff(s: State, f: Frame, fate: FlashFate)
    requires SlotSized(s, fate)
    ensures Dispatch(s, f, fate).reply.Some? <==>
              && (s.myId == 0 || (|f.payload| >= 1 && f.payload[0] in {0, s.myId})
                  || (f.payload == [] && s.myId == 0xFF))
              && f.cmd in {0x06, 0x08, 0x09, 0x0A, 0x0B}
  {
    if Addressed(s, f) {
      DispatchObeys(s, f, fate);
    }
  }

  // ---------- whole runs ----------

  datatype Input = Input(frame: Frame, fate: FlashFate)

  datatype Session = Session(state: State, track: Track)

  predicate Feasible(inputs: seq<Input>) {
    forall i :: 0 <= i < |inputs| ==> |inputs[i].frame.payload| <= PAYLOAD_MAX && |inputs[i].fate.noise| == APP_SIZE
  }

  ghost function Step(r: Session, i: Input): (q: Session)
    requires Inv(r.state, r.track) && SlotSized(r.state, i.fate)
    requires |i.frame.payload| <= PAYLOAD_MAX
    ensures Inv(q.state, q.track)
  {
    DispatchKeepsInv(r.state, r.track, i.frame, i.fate);
    Session(Dispatch(r.state, i.frame, i.fate).state, Observe(r.track, r.state, i.frame, i.fate))
  }

  /** The session and the bystander's record after a run of frames from a fresh session. */
  ghost function After(myId: byte, slot: seq<byte>, inputs: seq<Input>): (r: Session)
    requires |slot| == APP_SIZE && Feasible(inputs)
    ensures Inv(r.state, r.track)
  {
    if inputs == [] then Session(Init(myId, slot), NEW_TRACK)
    else Step(After(myId, slot, inputs[..|inputs| - 1]), inputs[|inputs| - 1])
  }

  /** Over every run of frames and flash faults, a commit after an accepted START is the image in slot B. */
  lemma EveryCommitIsFaithful(myId: byte, slot: seq<byte>, inputs: seq<Input>, i: Input, size: nat, sum: nat)
    requires |slot| == APP_SIZE && Feasible(inputs + [i])
    requires Feasible(inputs)
    requires var r := After(myId, slot, inputs);
             SlotSized(r.state, i.fate) && Commit(size, sum) in Dispatch(r.state, i.frame, i.fate).actions
    ensures var r := After(myId, slot, inputs);
            && size <= APP_SIZE
            && r.state.slot[..size] == Concat(r.track.blocks)
            && AllButLastFull(r.track.blocks)
            && (sum == Sum32(r.state.slot[..size]) <==> Wrap32(r.track.staleSum) == 0)
            && (r.track.accepted ==> 16 <= size && sum == Sum32(r.state.slot[..size]))
  {
    var r := After(myId, slot, inputs);
    CommitIsTheImage(r.state, r.track, i.frame, i.fate, size, sum);
  }

  lemma AfterNext(myId: byte, slot: seq<byte>, inputs: seq<Input>, i: Input)
    requires |slot| == APP_SIZE && Feasible(inputs) && Feasible(inputs + [i])
    requires |i.frame.payload| <= PAYLOAD_MAX && |i.fate.noise| == APP_SIZE
    ensures After(myId, slot, inputs + [i]) == Step(After(myId, slot, inputs), i)
  {
    assert (inputs + [i])[..|inputs + [i]| - 1] == inputs;
  }

  // ---------- bus discipline ----------

  /** A frame for somebody else is invisible: no reply, no callback, no change. */
  lemma ForeignFramesAreIgnored(s: State, f: Frame, fate: FlashFate)
    requires SlotSized(s, fate)
    requires s.myId != 0 && TargetOf(f) != s.myId && TargetOf(f) != 0
    ensures Dispatch(s, f, fate) == Outcome(s, None, [])
  {}

  /** An identity, once set, never changes; a reply carries it and answers the command received. */
  lemma RepliesAreIdentified(s: State, f: Frame, fate: FlashFate)
    requires SlotSized(s, fate)
    ensures var o := Dispatch(s, f, fate);
            && (s.myId != 0 ==> o.state.myId == s.myId)
            && (o.reply.Some? ==> f.cmd in {CMD_SELECT, CMD_START, CMD_DATA, CMD_END, CMD_ABORT}
                                  && o.reply.value.cmd == f.cmd + 0x80
                                  && 2 <= |o.reply.value.payload| <= 4
                                  && o.reply.value.payload[0] == o.state.myId)
  {
    if Addressed(s, f) {
      var u, body := Identified(s, f), BodyOf(f);
      DispatchObeys(s, f, fate);
      if u.downloading && |body| >= 4 {
        var blk, intact := LE16(body[..2]), Crc16(body[4..]) == LE16(body[2..4]);
        AttemptKeepsIdentity(u, blk, intact, body[4..], fate);
      }
    }
  }

  lemma AttemptKeepsIdentity(s: State, blk: nat, intact: bool, data: seq<byte>, fate: FlashFate)
    requires SlotSized(s, fate)
    ensures DataAttempt(s, blk, intact, data, fate).state.myId == s.myId
  {}

  datatype Node = Node(state: State, fate: FlashFate)

  predicate FixedIdentities(boards: seq<Node>) {
    forall i :: 0 <= i < |boards| ==> SlotSized(boards[i].state, boards[i].fate) && boards[i].state.myId != 0
  }

  function RepliesTo(boards: seq<Node>, f: Frame): (n: nat)
    requires FixedIdentities(boards)
  {
    if boards == [] then 0
    else
      var last := boards[|boards| - 1];
      RepliesTo(boards[..|boards| - 1], f) + if Dispatch(last.state, f, last.fate).reply.Some? then 1 else 0
  }

  lemma {:induction false} NobodyElseReplies(boards: seq<Node>, f: Frame)
    requires FixedIdentities(boards)
    requires TargetOf(f) != 0
    requires forall i :: 0 <= i < |boards| ==> boards[i].state.myId != TargetOf(f)
    ensures RepliesTo(boards, f) == 0
  {
    if boards != [] {
      var last := boards[|boards| - 1];
      NobodyElseReplies(boards[..|boards| - 1], f);
      ForeignFramesAreIgnored(last.state, f, last.fate);
    }
  }

  /** On a bus of boards with distinct fixed identities, a unicast frame draws at most one reply in all. */
  lemma {:induction false} UnicastDrawsOneReply(boards: seq<Node>, f: Frame)
    requires FixedIdentities(boards)
    requires forall i, j :: 0 <= i < j < |boards| ==> boards[i].state.myId != boards[j].state.myId
    requires TargetOf(f) != 0
    ensures RepliesTo(boards, f) <= 1
  {
    if boards != [] {
      var n := |boards| - 1;
      if boards[n].state.myId == TargetOf(f) {
        NobodyElseReplies(boards[..n], f);
      } else {
        UnicastDrawsOneReply(boards[..n], f);
        ForeignFramesAreIgnored(boards[n].state, f, boards[n].fate);
      }
    }
  }
}

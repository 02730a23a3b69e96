/**
  The board's program for the download session: the fields of the protocol and session contexts,
  updated in place by one octet at a time. Every method is proved to be the function of the same
  step in module Session.
*/
module Boards {
  import opened Bytes
  import opened Crc
  import opened Frames
  import opened AppImage
  import opened Session

  class Board {
    const parser: FrameParser
    const slot: array<byte>
    var myId: byte
    var selected: bool
    var downloading: bool
    var fwSize: nat
    var fwSum: nat
    var rxBytes: nat
    var expectedBlk: nat
    var upgOffset: nat
    var upgChecksum: word32

    ghost predicate Sized(fate: FlashFate)
      reads this
    {
      slot.Length == APP_SIZE == |fate.noise|
    }

    ghost function Abs(): (s: State)
      reads this, slot
      ensures |s.slot| == slot.Length
    {
      State(myId, selected, downloading, fwSize, fwSum, rxBytes, expectedBlk, upgOffset, upgChecksum, slot[..])
    }

    ghost predicate Valid()
      reads this, parser, parser.buf
    {
      slot.Length == APP_SIZE && parser.Valid() && parser.buf != slot
    }

    constructor (id: byte, flash: array<byte>)
      requires flash.Length == APP_SIZE
      ensures Valid() && slot == flash && fresh(parser) && fresh(parser.buf)
      ensures Abs() == Init(id, flash[..]) && parser.Collected() == []
    {
      parser := new FrameParser();
      slot := flash;
      myId, selected, downloading := id, false, false;
      fwSize, fwSum, rxBytes, expectedBlk, upgOffset, upgChecksum := 0, 0, 0, 0, 0, 0;
    }

    // ---------- flash ----------

    method ErasePartition(fate: FlashFate)
      requires Sized(fate)
      modifies slot
      ensures slot[..] == if fate.eraseOk then BlankSlot() else fate.noise
    {
      for i := 0 to slot.Length
        invariant forall k :: 0 <= k < i ==> slot[k] == if fate.eraseOk then 0xFF else fate.noise[k]
      {
        slot[i] := if fate.eraseOk then 0xFF else fate.noise[i];
      }
    }

    method ProgramBlock(blk: nat, n: nat, fate: FlashFate)
      requires Sized(fate) && Fits(blk, n)
      modifies slot
      ensures slot[..] == Programmed(old(slot[..]), blk, n, fate)
    {
      PaddedFits(blk, n);
      var off := Offset(blk);
      var end := off + Padded(n);
      for i := off to end
        invariant forall k :: off <= k < i ==> slot[k] == fate.noise[k]
        invariant forall k :: 0 <= k < off || i <= k < slot.Length ==> slot[k] == old(slot[k])
      {
        slot[i] := fate.noise[i];
      }
      assert slot[..] == old(slot[..])[..off] + fate.noise[off..end] + old(slot[..])[end..];
    }

    method VerifyBlock(blk: nat, data: seq<byte>) returns (ok: bool)
      requires slot.Length == APP_SIZE && Fits(blk, |data|)
      ensures ok == ReadsBack(slot[..], blk, data)
    {
      var off := Offset(blk);
      var i := 0;
      while i < |data| && slot[off + i] == data[i]
        invariant i <= |data| && forall k :: 0 <= k < i ==> slot[off + k] == data[k]
      {
        i := i + 1;
      }
      ok := i == |data|;
      if ok {
        assert slot[..][off..off + |data|] == data;
      } else {
        assert slot[..][off..off + |data|][i] != data[i];
      }
    }

    // ---------- session callbacks ----------

    method SessionStart(size: nat, fate: FlashFate) returns (err: byte)
      requires Sized(fate)
      modifies this, slot
      ensures Attempt(Abs(), err) == StartSession(old(Abs()), size, fate)
    {
      if size < 16 || size > APP_SIZE {
        return ERR_SIZE;
      }
      ErasePartition(fate);
      if !fate.eraseOk {
        return ERR_FLASH;
      }
      upgOffset, upgChecksum := 0, 0;
      err := ERR_NONE;
    }

    method Accumulate(data: seq<byte>)
      modifies this`upgChecksum
      ensures upgChecksum == Wrap32(old(upgChecksum) + Sum(data))
    {
      assert data[..0] == [];
      for i := 0 to |data|
        invariant upgChecksum == Wrap32(old(upgChecksum) + Sum(data[..i]))
      {
        SplitAt(data, i);
        WrapAdd(old(upgChecksum) + Sum(data[..i]), data[i] as int);
        upgChecksum := Wrap32(upgChecksum + data[i] as int);
      }
      assert data[..|data|] == data;
    }

    method SessionData(blk: nat, data: seq<byte>, fate: FlashFate) returns (err: byte)
      requires Sized(fate)
      modifies this, slot
      ensures Attempt(Abs(), err) == WriteBlock(old(Abs()), blk, data, fate)
    {
      if !Fits(blk, |data|) {
        return ERR_SIZE;
      }
      ProgramBlock(blk, |data|, fate);
      if !fate.writeOk {
        return ERR_FLASH;
      }
      var same := VerifyBlock(blk, data);
      if !same {
        return ERR_FLASH;
      }
      Accumulate(data);
      upgOffset := Offset(blk) + |data|;
      err := ERR_NONE;
    }

    method SessionEnd(size: nat) returns (action: Action)
      ensures action == if size != upgOffset then Abort else Commit(upgOffset, upgChecksum)
    {
      action := if size != upgOffset then Abort else Commit(upgOffset, upgChecksum);
    }

    // ---------- commands ----------

    method OnSelect(body: seq<byte>) returns (err: byte)
      modifies this
      ensures Abs() == Select(old(Abs()), body).state
      ensures Select(old(Abs()), body) == Outcome(Abs(), Reply(Abs(), CMD_SELECT, err, []), [])
    {
      if |body| != 1 || body[0] != 1 {
        return ERR_BAD_LEN;
      }
      selected, downloading := true, false;
      err := ERR_NONE;
    }

    method OnStart(body: seq<byte>, fate: FlashFate) returns (err: byte)
      requires Sized(fate)
      modifies this, slot
      ensures Start(old(Abs()), body, fate) == Outcome(Abs(), Reply(Abs(), CMD_START, err, []), [])
    {
      if !selected || |body| != 8 {
        return if selected then ERR_BAD_LEN else ERR_STATE;
      }
      fwSize, fwSum := LE32(body[..4]), LE32(body[4..]);
      expectedBlk, rxBytes := 0, 0;
      err := SessionStart(fwSize, fate);
      if err == ERR_NONE {
        downloading := true;
      }
    }

    method OnData(body: seq<byte>, fate: FlashFate) returns (err: byte, echo: seq<byte>)
      requires Sized(fate)
      modifies this, slot
      ensures Data(old(Abs()), body, fate) == Outcome(Abs(), Reply(Abs(), CMD_DATA, err, echo), [])
    {
      if !downloading || |body| < 4 {
        return ERR_STATE, [0, 0];
      }
      echo := body[..2];
      err := TakeBlock(LE16(body[..2]), LE16(body[2..4]), body[4..], fate);
    }

    method TakeBlock(blk: nat, crc: nat, data: seq<byte>, fate: FlashFate) returns (err: byte)
      requires Sized(fate)
      modifies this, slot
      ensures Attempt(Abs(), err) == DataAttempt(old(Abs()), blk, Crc16(data) == crc, data, fate)
    {
      var computed := BlockCrc(data);
      if computed != crc {
        return ERR_CRC;
      }
      if blk == expectedBlk {
        err := SessionData(blk, data, fate);
        if err == ERR_NONE {
          expectedBlk, rxBytes := Next16(expectedBlk), Wrap32(rxBytes + |data|);
        }
      } else if blk + 1 == expectedBlk {
        err := ERR_NONE;
      } else {
        err := ERR_SEQ;
      }
    }

    method OnEnd() returns (err: byte, actions: seq<Action>)
      ensures End(Abs()) == Outcome(Abs(), Reply(Abs(), CMD_END, err, []), actions)
    {
      actions := [];
      if !downloading {
        err := ERR_STATE;
      } else if rxBytes != fwSize {
        err := ERR_SIZE;
      } else {
        err := ERR_NONE;
        var action := SessionEnd(fwSize);
        actions := [action];
      }
    }

    method AcceptsAddress(f: Frame) returns (ok: bool, learned: bool)
      modifies this`myId
      ensures ok == Addressed(old(Abs()), f)
      ensures Abs() == if ok then Identified(old(Abs()), f) else old(Abs())
      ensures learned == (myId != old(myId))
    {
      var id := TargetOf(f);
      learned := false;
      if myId == 0 {
        if id != 0 {
          myId, learned := id, true;
        }
        return true, learned;
      }
      ok := id == myId || id == 0;
    }

    method Answer(cmd: byte, err: byte, tail: seq<byte>) returns (reply: Option<Frame>)
      requires cmd < 0x80
      ensures reply == Reply(Abs(), cmd, err, tail)
    {
      reply := Some(Frame(cmd + 0x80, [myId, err] + tail));
    }

    method Execute(cmd: byte, body: seq<byte>, fate: FlashFate) returns (reply: Option<Frame>, actions: seq<Action>)
      requires Sized(fate)
      modifies this, slot
      ensures Outcome(Abs(), reply, actions) == Obey(old(Abs()), cmd, body, fate)
    {
      reply, actions := None, [];
      var err: byte;
      if cmd == CMD_SELECT {
        err := OnSelect(body);
        reply := Answer(cmd, err, []);
      } else if cmd == CMD_START {
        err := OnStart(body, fate);
        reply := Answer(cmd, err, []);
      } else if cmd == CMD_DATA {
        var echo;
        err, echo := OnData(body, fate);
        reply := Answer(cmd, err, echo);
      } else if cmd == CMD_END {
        err, actions := OnEnd();
        reply := Answer(cmd, err, []);
      } else if cmd == CMD_ABORT {
        reply := Answer(cmd, ERR_NONE, []);
        actions := [Abort];
      }
    }

    method OnFrame(f: Frame, fate: FlashFate) returns (reply: Option<Frame>, actions: seq<Action>)
      requires Sized(fate)
      modifies this, slot
      ensures Outcome(Abs(), reply, actions) == Dispatch(old(Abs()), f, fate)
    {
      var ok, learned := AcceptsAddress(f);
      if !ok {
        return None, [];
      }
      reply, actions := Execute(f.cmd, BodyOf(f), fate);
      if learned {
        actions := [LearnId(myId)] + actions;
      }
    }

    /** One octet from the line: at most one frame, hence at most one reply, comes of it. */
    method FeedByte(b: byte, fate: FlashFate) returns (reply: seq<byte>, actions: seq<Action>)
      requires Valid() && |fate.noise| == APP_SIZE
      modifies this, slot, parser, parser.buf
      ensures Valid()
      ensures var fed := Feed(old(parser.Collected()), b);
              && parser.Collected() == fed.acc
              && if fed.out.None? then Abs() == old(Abs()) && reply == [] && actions == []
                 else
                   var o := Dispatch(old(Abs()), fed.out.value, fate);
                   && Abs() == o.state && actions == o.actions
                   && reply == PrintedReply(o)
    {
      var frame := parser.FeedByte(b);
      if frame.None? {
        return [], [];
      }
      var answer;
      answer, actions := OnFrame(frame.value, fate);
      ghost var o := Dispatch(old(Abs()), frame.value, fate);
      assert o == Outcome(Abs(), answer, actions);
      RepliesAreIdentified(old(Abs()), frame.value, fate);
      reply := if answer.Some? then BuildFrame(answer.value) else [];
    }
  }

  function PrintedReply(o: Outcome): seq<byte> {
    if o.reply.Some? && |o.reply.value.payload| < 256 then BuildFrame(o.reply.value) else []
  }
}

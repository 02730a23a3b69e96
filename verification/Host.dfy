/**
  The host's sender. It talks through a line on which the board, the channel and the power supply act
  at will between any two of its own steps, and on which every frame it has sent may still arrive. What it
  hears are octets: replies of the board, any of them and any number of times, in printed form, with noise
  and damaged frames between, handed over in pieces of any size.
*/
module Host {
  import opened Bytes
  import opened Crc
  import opened AppImage
  import opened Frames
  import opened HostFrames
  import opened Session
  import opened Transfer

  /** n transmissions of the same frame. */
  function Repeat(f: Frame, n: nat): (s: seq<Frame>)
    ensures |s| == n
  {
    seq(n, _ => f)
  }

  lemma RepeatNext(log: seq<Frame>, f: Frame, n: nat)
    ensures log + Repeat(f, n) + [f] == log + Repeat(f, n + 1)
  {}

  ghost predicate AreFrom(frames: seq<Frame>, replies: set<Frame>, others: seq<Frame>) {
    forall i :: 0 <= i < |frames| ==> frames[i] in replies || frames[i] in others
  }

  /**
    Octets in which the recogniser finds nothing but replies of the board: whatever good frames, damaged frames
    and noise follow, what it then takes from all of it is a reply or one of the good frames that followed.
  */
  ghost predicate CarriesReplies(bytes: seq<byte>, replies: set<Frame>) {
    forall later: seq<Piece> :: AllProper(later) ==>
      AreFrom(Drain(bytes + Stream(later)).frames, replies, GoodFrames(later))
  }

  lemma CarriesNothing(replies: set<Frame>)
    ensures CarriesReplies([], replies)
  {
    forall later: seq<Piece> | AllProper(later)
      ensures AreFrom(Drain([] + Stream(later)).frames, replies, GoodFrames(later))
    {
      StreamDrains(later);
      assert [] + Stream(later) == Stream(later);
    }
  }

  lemma CarriesMoreReplies(bytes: seq<byte>, replies: set<Frame>, more: set<Frame>)
    requires CarriesReplies(bytes, replies) && replies <= more
    ensures CarriesReplies(bytes, more)
  {
    forall later: seq<Piece> | AllProper(later)
      ensures AreFrom(Drain(bytes + Stream(later)).frames, more, GoodFrames(later))
    {
      assert AreFrom(Drain(bytes + Stream(later)).frames, replies, GoodFrames(later));
    }
  }

  lemma CarriesPiece(bytes: seq<byte>, replies: set<Frame>, p: Piece)
    requires CarriesReplies(bytes, replies) && Proper(p) && (p.Good? ==> p.frame in replies)
    ensures CarriesReplies(bytes + OctetsOf(p), replies)
  {
    forall later: seq<Piece> | AllProper(later)
      ensures AreFrom(Drain(bytes + OctetsOf(p) + Stream(later)).frames, replies, GoodFrames(later))
    {
      var all := [p] + later;
      StreamFirst(all);
      assert all[1..] == later;
      Regroup(bytes, OctetsOf(p), Stream(later));
      assert AreFrom(Drain(bytes + Stream(all)).frames, replies, GoodFrames(all));
      PieceIsAReply(Drain(bytes + Stream(all)).frames, replies, p, GoodFrames(later));
    }
  }

  lemma PieceIsAReply(frames: seq<Frame>, replies: set<Frame>, p: Piece, others: seq<Frame>)
    requires AreFrom(frames, replies, FramesIn(p) + others) && (p.Good? ==> p.frame in replies)
    ensures AreFrom(frames, replies, others)
  {}

  /** What the recogniser takes from such octets is a reply, and what it keeps still carries replies. */
  lemma ExtractsReply(rx: seq<byte>, incoming: seq<byte>, replies: set<Frame>, e: Extracted)
    requires CarriesReplies(rx + incoming, replies) && e == Extract(rx)
    ensures CarriesReplies(e.rest + incoming, replies)
    ensures e.out.Some? ==> e.out.value in replies
  {
    forall later: seq<Piece> | AllProper(later)
      ensures AreFrom(Drain(e.rest + incoming + Stream(later)).frames, replies, GoodFrames(later))
      ensures later == [] && e.out.Some? ==> e.out.value in replies
    {
      assert AreFrom(Drain(rx + incoming + Stream(later)).frames, replies, GoodFrames(later));
      Regroup(rx, incoming, Stream(later));
      Regroup(e.rest, incoming, Stream(later));
      DrainAfter(rx, incoming + Stream(later), e);
      BehindTheFirst(Drain(e.rest + (incoming + Stream(later))).frames, e.out, replies, GoodFrames(later));
    }
    var none: seq<Piece> := [];
    assert AllProper(none);
  }

  lemma BehindTheFirst(frames: seq<Frame>, first: Option<Frame>, replies: set<Frame>, others: seq<Frame>)
    requires AreFrom((if first.Some? then [first.value] else []) + frames, replies, others)
    ensures AreFrom(frames, replies, others)
    ensures first.Some? ==> first.value in replies || first.value in others
  {
    var all := (if first.Some? then [first.value] else []) + frames;
    forall i | 0 <= i < |frames| ensures frames[i] in replies || frames[i] in others {
      assert frames[i] == all[i + |all| - |frames|];
    }
    if first.Some? {
      assert all[0] == first.value;
    }
  }

  class Line {
    var world: World
    /** What the host has transmitted, in order. */
    var log: seq<Frame>
    /** Octets on their way to the host. */
    var incoming: seq<byte>
    /** How many of them the serial port holds already. */
    var arrived: nat
    /** Milliseconds. */
    var now: nat

    constructor (board: State)
      requires |board.slot| == APP_SIZE
      ensures Fresh(world) && log == [] && incoming == [] && arrived == 0 && world.state == board
    {
      world := World(board, NEW_TRACK, {}, {}, [], true, false);
      log, incoming, arrived, now := [], [], 0, 0;
    }

    /** held is what the host has collected and not used yet. */
    ghost predicate Sound(addr: byte, data: seq<byte>, held: seq<byte>)
      requires Sendable(data)
      reads this
    {
      Safe(world, addr, data) && CarriesReplies(held + incoming, world.replies) && arrived <= |incoming|
    }

    /** An event of the board or the channel. */
    method Happen(addr: byte, data: seq<byte>, e: Event, ghost held: seq<byte>)
      requires Sendable(data) && Sound(addr, data, held) && Possible(world, addr, data, e)
      requires e.Deliver? ==> SlotSized(world.state, e.fate)
      modifies this`world
      ensures Sound(addr, data, held) && old(world.replies) <= world.replies && world == Next(old(world), e)
    {
      NextIsSafe(world, addr, data, e);
      world := Next(world, e);
      CarriesMoreReplies(held + incoming, old(world.replies), world.replies);
    }

    method Append(addr: byte, data: seq<byte>, ghost held: seq<byte>, octets: seq<byte>)
      requires Sendable(data) && Sound(addr, data, held)
      requires CarriesReplies(held + incoming + octets, world.replies)
      modifies this`incoming
      ensures Sound(addr, data, held) && incoming == old(incoming) + octets
    {
      assert held + (incoming + octets) == held + incoming + octets;
      incoming := incoming + octets;
    }

    /** Noise, a frame damaged in any way its checks notice, or a reply, perhaps not for the first time. */
    method Hear(addr: byte, data: seq<byte>, p: Piece, ghost held: seq<byte>)
      requires Sendable(data) && Sound(addr, data, held)
      requires Proper(p) && (p.Good? ==> p.frame in world.replies)
      modifies this`incoming
      ensures Sound(addr, data, held) && incoming == old(incoming) + OctetsOf(p)
    {
      CarriesPiece(held + incoming, world.replies, p);
      Append(addr, data, held, OctetsOf(p));
    }

    /** Anything may happen: arrivals in any order and number, flash faults, power cycles, replies and noise. */
    method Stir(addr: byte, data: seq<byte>, ghost held: seq<byte>)
      requires Sendable(data) && Sound(addr, data, held)
      modifies this`world, this`incoming
      ensures Sound(addr, data, held) && old(world.replies) <= world.replies
    {
      var steps: nat := *;
      while steps > 0
        invariant Sound(addr, data, held) && old(world.replies) <= world.replies
      {
        steps := steps - 1;
        var e: Event := *;
        var p: Piece := *;
        var hear: bool := *;
        if hear && Proper(p) && (p.Good? ==> p.frame in world.replies) {
          Hear(addr, data, p, held);
        } else if e.Deliver? && e.frame in world.sent && |e.fate.noise| == APP_SIZE {
          Happen(addr, data, e, held);
        } else if e.PowerCycle? && |e.slot| == APP_SIZE {
          Happen(addr, data, e, held);
        }
      }
    }

    /** At least as many milliseconds as the host pauses go by, and never none. */
    method Drift(addr: byte, data: seq<byte>, pause: nat, ghost held: seq<byte>)
      requires Sendable(data) && Sound(addr, data, held)
      modifies this`world, this`incoming, this`arrived, this`now
      ensures Sound(addr, data, held) && old(world.replies) <= world.replies
      ensures now > old(now) && now >= old(now) + pause
    {
      Stir(addr, data, held);
      var more: nat, late: nat := *, *;
      arrived := if arrived + more <= |incoming| then arrived + more else |incoming|;
      now := now + 1 + pause + late;
    }

    method Transmit(addr: byte, data: seq<byte>, f: Frame, ghost held: seq<byte>)
      requires Sendable(data) && Sound(addr, data, held)
      requires HostSends(addr, data, f) && (f == SelectFrame(addr) || world.replies != {})
      modifies this
      ensures Sound(addr, data, held) && old(world.replies) <= world.replies
      ensures log == old(log) + [f] && now >= old(now)
    {
      log := log + [f];
      Happen(addr, data, Send(f), held);
      Drift(addr, data, 0, held);
    }
  }

  const Z_ERR: byte := 0x7F

  function ErrorIn(payload: seq<byte>): byte {
    if |payload| > 1 then payload[1] else 0xFF
  }

  /** An error reply to the command. */
  predicate IsRefusal(r: Frame, cmd: byte) {
    r.cmd == cmd + REPLY_FLAG && !IsReply(r, cmd, ERR_NONE)
  }

  /** None of these frames ends a command: no acknowledgement or, unless the sender persists, no reply at all. */
  ghost predicate InVain(heard: seq<Frame>, from: nat, to: int, cmd: byte, persistent: bool) {
    forall i :: from <= i < to && i < |heard| ==>
      if persistent then !IsReply(heard[i], cmd, ERR_NONE) else heard[i].cmd != cmd + REPLY_FLAG
  }

  /** No reply to the command and no report of an error either. */
  ghost predicate Unheeded(heard: seq<Frame>, from: nat, to: int, cmd: byte) {
    forall i :: from <= i < to && i < |heard| ==> heard[i].cmd != cmd + REPLY_FLAG && heard[i].cmd != Z_ERR
  }

  ghost predicate Acknowledged(replies: set<Frame>, cmd: byte) {
    exists r :: r in replies && IsReply(r, cmd, ERR_NONE)
  }

  predicate Acknowledges(reply: Option<seq<byte>>) {
    reply.Some? && ErrorIn(reply.value) == ERR_NONE
  }

  /** What is heard while waiting for a reply: the reply, if one comes, last, and no error report but the last. */
  ghost predicate Exchange(heard: seq<Frame>, from: nat, cmd: byte, reply: Option<seq<byte>>)
    requires cmd < 0x80
  {
    && Unheeded(heard, from, |heard| - 1, cmd)
    && match reply
       case Some(payload) => from < |heard| && heard[|heard| - 1] == Frame(cmd + 0x80, payload)
       case None => forall i :: from <= i < |heard| ==> heard[i].cmd != cmd + 0x80
  }

  ghost predicate AnsweredLast(heard: seq<Frame>, from: nat, cmd: byte, acknowledged: bool) {
    from < |heard| && var last := heard[|heard| - 1];
    if acknowledged then IsReply(last, cmd, ERR_NONE) else IsRefusal(last, cmd)
  }

  /** How a command ends: at the first frame that ends it, and acknowledged exactly if that is what it is. */
  ghost predicate Concluded(heard: seq<Frame>, from: nat, cmd: byte, persistent: bool, ok: bool) {
    if ok then AnsweredLast(heard, from, cmd, true) && InVain(heard, from, |heard| - 1, cmd, persistent)
    else
      || InVain(heard, from, |heard|, cmd, persistent)
      || (!persistent && AnsweredLast(heard, from, cmd, false) && InVain(heard, from, |heard| - 1, cmd, persistent))
  }

  lemma OutcomeOfATry(
      before: seq<Frame>, heard: seq<Frame>, from: nat, cmd: byte, persistent: bool, reply: Option<seq<byte>>)
    requires cmd < 0x80 && from <= |before| && before <= heard
    requires InVain(before, from, |before|, cmd, persistent) && Exchange(heard, |before|, cmd, reply)
    ensures Concluded(heard, from, cmd, persistent, Acknowledges(reply))
    ensures reply.None? || (persistent && !Acknowledges(reply)) ==> InVain(heard, from, |heard|, cmd, persistent)
    ensures reply.Some? && !Acknowledges(reply) ==> AnsweredLast(heard, from, cmd, false)
  {}

  /** How a command is sent: at most so often, so many milliseconds apart, and whether an error reply is ridden out. */
  datatype Patience = Patience(limit: nat, wait: nat, pause: nat, persistent: bool)

  /** Enough time for n transmissions, each with its wait for a reply and the pause after it. */
  ghost predicate WaitedOut(p: Patience, n: nat, start: nat, end: nat) {
    end >= start + n * (p.wait + p.pause)
  }

  lemma WaitedOutMore(p: Patience, n: nat, start: nat, mid: nat, end: nat)
    requires WaitedOut(p, n, start, mid) && end >= mid + p.wait + p.pause
    ensures WaitedOut(p, n + 1, start, end)
  {
    assert (n + 1) * (p.wait + p.pause) == n * (p.wait + p.pause) + (p.wait + p.pause);
  }

  const FOR_SELECT := Patience(8, 2000, 300, true)
  const FOR_START := Patience(4, 5000, 0, false)
  const FOR_DATA := Patience(8, 2000, 0, true)
  const FOR_END := Patience(4, 30000, 0, false)
  const ABORT_WAIT := 1000

  /** The DATA frames of the first blocks, in order, block k counts[k] times over. */
  function Blocks(addr: byte, data: seq<byte>, counts: seq<nat>): seq<Frame>
    requires Offset(|counts|) < |data| + DATA_MAX && |data| <= MAX_FW_SIZE
  {
    if counts == [] then []
    else
      var k := |counts| - 1;
      Blocks(addr, data, counts[..k]) + Repeat(DataFrame(addr, k, Chunk(data, k)), counts[k])
  }

  function Opening(addr: byte, data: seq<byte>, n0: nat, n1: nat): seq<Frame>
    requires Sendable(data)
  {
    Repeat(SelectFrame(addr), n0) + Repeat(StartFrame(addr, |data|, Sum32(data)), n1)
  }

  predicate Tries(n: nat, limit: nat) {
    1 <= n <= limit
  }

  /** What a successful transfer puts on the wire, in order. */
  ghost predicate Script(addr: byte, data: seq<byte>, log: seq<Frame>)
    requires Sendable(data)
  {
    exists n0: nat, n1: nat, counts: seq<nat>, n2: nat ::
      && Tries(n0, 8) && Tries(n1, 4) && Tries(n2, 4) && BlockTries(data, counts)
      && Offset(|counts|) >= |data|
      && log == Opening(addr, data, n0, n1) + Blocks(addr, data, counts) + Repeat(EndFrame(addr), n2)
  }

  /** Transmissions of a frame that was never acknowledged: all that are allowed, unless something excuses less. */
  predicate Spent(n: nat, limit: nat, excused: bool) {
    n <= limit && (excused || n == limit)
  }

  /** What a failed transfer has put on the wire, by the command that failed. */
  ghost predicate SelectFailed(addr: byte, log: seq<Frame>, cancelled: bool) {
    exists n: nat :: Spent(n, 8, cancelled) && log == Repeat(SelectFrame(addr), n)
  }

  ghost predicate StartFailed(addr: byte, data: seq<byte>, log: seq<Frame>, excused: bool)
    requires Sendable(data)
  {
    exists n0: nat, n: nat :: Tries(n0, 8) && Spent(n, 4, excused)
      && log == Opening(addr, data, n0, n)
  }

  ghost predicate DataFailed(addr: byte, data: seq<byte>, log: seq<Frame>, cancelled: bool)
    requires Sendable(data)
  {
    exists n0: nat, n1: nat, counts: seq<nat>, n: nat ::
      && Tries(n0, 8) && Tries(n1, 4) && BlockTries(data, counts) && Spent(n, 8, cancelled)
      && Offset(|counts|) < |data|
      && log == Opening(addr, data, n0, n1) + GivenUp(addr, data, counts, n)
  }

  ghost predicate EndFailed(addr: byte, data: seq<byte>, log: seq<Frame>, excused: bool)
    requires Sendable(data)
  {
    exists n0: nat, n1: nat, counts: seq<nat>, n: nat ::
      && Tries(n0, 8) && Tries(n1, 4) && BlockTries(data, counts) && Spent(n, 4, excused)
      && Offset(|counts|) >= |data|
      && log == Opening(addr, data, n0, n1) + Blocks(addr, data, counts) + Repeat(EndFrame(addr), n)
  }

  ghost predicate Refused(heard: seq<Frame>, cmd: byte) {
    exists i :: 0 <= i < |heard| && IsRefusal(heard[i], cmd)
  }

  /**
    Why a transfer of a proper image fails: some command has used up its tries, unless the user cancelled or the
    board refused START (0x08) or END (0x0A). In the middle of the data it has told the board.
  */
  ghost predicate Failed(addr: byte, data: seq<byte>, log: seq<Frame>, heard: seq<Frame>, cancelled: bool)
    requires Sendable(data)
  {
    || SelectFailed(addr, log, cancelled)
    || StartFailed(addr, data, log, cancelled || Refused(heard, 0x08))
    || DataFailed(addr, data, log, cancelled)
    || EndFailed(addr, data, log, cancelled || Refused(heard, 0x0A))
  }

  lemma SelectHasFailed(
      addr: byte, data: seq<byte>, n: nat, log: seq<Frame>, heard: seq<Frame>, cancelled: bool)
    requires Sendable(data) && Spent(n, 8, cancelled) && log == Repeat(SelectFrame(addr), n)
    ensures Failed(addr, data, log, heard, cancelled)
  {}

  lemma StartHasFailed(
      addr: byte, data: seq<byte>, n0: nat, n: nat,
      log: seq<Frame>, heard: seq<Frame>, cancelled: bool)
    requires Sendable(data) && Tries(n0, 8) && Spent(n, 4, cancelled || Refused(heard, CMD_START))
    requires log == Opening(addr, data, n0, n)
    ensures Failed(addr, data, log, heard, cancelled)
  {}

  lemma DataHasFailed(
      addr: byte, data: seq<byte>, n0: nat, n1: nat, counts: seq<nat>, n: nat,
      log1: seq<Frame>, log: seq<Frame>, heard: seq<Frame>, cancelled: bool)
    requires Sendable(data) && Tries(n0, 8) && Tries(n1, 4) && BlockTries(data, counts) && Spent(n, 8, cancelled)
    requires Offset(|counts|) < |data|
    requires log1 == Opening(addr, data, n0, n1)
    requires log == log1 + GivenUp(addr, data, counts, n)
    ensures Failed(addr, data, log, heard, cancelled)
  {
    assert DataFailed(addr, data, log, cancelled);
  }

  lemma EndHasFailed(
      addr: byte, data: seq<byte>, n0: nat, n1: nat, counts: seq<nat>, n: nat,
      before: seq<Frame>, log: seq<Frame>, heard: seq<Frame>, cancelled: bool)
    requires Sendable(data) && Tries(n0, 8) && Tries(n1, 4) && BlockTries(data, counts)
    requires Spent(n, 4, cancelled || Refused(heard, CMD_END)) && Offset(|counts|) >= |data|
    requires before == Opening(addr, data, n0, n1) + Blocks(addr, data, counts)
    requires log == before + Repeat(EndFrame(addr), n)
    ensures Failed(addr, data, log, heard, cancelled)
  {
    assert EndFailed(addr, data, log, cancelled || Refused(heard, CMD_END));
  }

  lemma Ended(
      addr: byte, data: seq<byte>, n0: nat, n1: nat, counts: seq<nat>, n: nat,
      before: seq<Frame>, log: seq<Frame>, heard: seq<Frame>, cancelled: bool, ok: bool)
    requires Sendable(data) && Tries(n0, 8) && Tries(n1, 4) && BlockTries(data, counts) && Offset(|counts|) >= |data|
    requires if ok then Tries(n, 4) else Spent(n, 4, cancelled || Refused(heard, CMD_END))
    requires before == Opening(addr, data, n0, n1) + Blocks(addr, data, counts)
    requires log == before + Repeat(EndFrame(addr), n)
    ensures if ok then Script(addr, data, log) else Failed(addr, data, log, heard, cancelled)
  {
    if ok {
      ScriptIsFollowed(addr, data, n0, n1, counts, n, before, log);
    } else {
      EndHasFailed(addr, data, n0, n1, counts, n, before, log, heard, cancelled);
    }
  }

  /** A command that a sender gave up at a refusal has one among what it heard. */
  lemma GivenUpTries(n: nat, p: Patience, heard: seq<Frame>, cmd: byte, cancelled: bool)
    requires n <= p.limit
    requires !cancelled ==> n == p.limit || (heard != [] && IsRefusal(heard[|heard| - 1], cmd))
    ensures Spent(n, p.limit, cancelled || Refused(heard, cmd))
  {}

  /** Some blocks acknowledged, the next one n times in vain, and an ABORT. */
  function GivenUp(addr: byte, data: seq<byte>, counts: seq<nat>, n: nat): seq<Frame>
    requires Offset(|counts|) < |data| <= MAX_FW_SIZE
  {
    Blocks(addr, data, counts) + Repeat(DataFrame(addr, |counts|, Chunk(data, |counts|)), n) + [AbortFrame(addr)]
  }

  ghost predicate BlockTries(data: seq<byte>, counts: seq<nat>) {
    Offset(|counts|) < |data| + DATA_MAX && forall k :: 0 <= k < |counts| ==> Tries(counts[k], 8)
  }

  class BootProtoSender {
    const line: Line
    var rx: seq<byte>
    var cancelled: bool
    /** All octets taken from the port, and the frames made of them. */
    ghost var received: seq<byte>
    ghost var heard: seq<Frame>

    constructor (serial: Line)
      ensures line == serial && !cancelled && rx == [] && received == [] && heard == []
    {
      line := serial;
      rx, cancelled, received, heard := [], false, [], [];
    }

    /** Every good frame that came in has been heard, in order, or is still in the buffer. */
    ghost predicate Sound(addr: byte, data: seq<byte>)
      requires Sendable(data)
      reads this, line
    {
      line.Sound(addr, data, rx) && Listened(received, heard, rx)
    }

    /** What every exchange keeps, and what only grows in it. */
    twostate predicate Onward(addr: byte, data: seq<byte>)
      requires Sendable(data)
      reads this, line
    {
      && Sound(addr, data) && old(line.world.replies) <= line.world.replies
      && old(heard) <= heard && old(line.now) <= line.now && (old(cancelled) ==> cancelled)
    }

    /** The user may cancel at any time. */
    method PollCancel() returns (stop: bool)
      modifies this`cancelled
      ensures stop == cancelled && (old(cancelled) ==> cancelled)
    {
      if * {
        cancelled := true;
      }
      stop := cancelled;
    }

    /** Drops everything before the first header. */
    method DropToHeader()
      modifies this`rx
      ensures rx == FromHeader(old(rx))
    {
      while rx != [] && rx[0] != HEADER
        invariant FromHeader(rx) == FromHeader(old(rx))
        decreases |rx|
      {
        rx := rx[1..];
      }
    }

    /** The inner loop of the recogniser. */
    method ExtractFrame() returns (out: Option<Frame>)
      modifies this`rx
      ensures Extracted(rx, out) == Extract(old(rx))
    {
      while true
        invariant Extract(rx) == Extract(old(rx))
        decreases |rx|
      {
        DropToHeader();
        if |rx| < 3 || |rx| < rx[2] as int + 5 {
          return None;
        }
        var total := rx[2] as int + 5;
        var frame := rx[..total];
        rx := rx[total..];
        if frame[total - 1] == FOOT && Crc8(frame[..total - 2]) == frame[total - 2] {
          return Some(Frame(frame[1], frame[3..total - 2]));
        }
      }
    }

    /** All the port holds goes into the buffer; the first good frame comes out. */
    method TakeIn(addr: byte, data: seq<byte>) returns (f: Option<Frame>)
      requires Sendable(data) && Sound(addr, data)
      modifies this`rx, this`received, this`heard, line`incoming, line`arrived
      ensures Sound(addr, data) && (f.Some? ==> f.value in line.world.replies)
      ensures line.arrived == 0 && line.incoming == old(line.incoming[line.arrived..])
      ensures received == old(received + line.incoming[..line.arrived])
      ensures heard == if f.Some? then old(heard) + [f.value] else old(heard)
      ensures f.None? ==> Spoilt(rx)
    {
      ghost var chunk := line.incoming[..line.arrived];
      ListenedMore(received, heard, rx, chunk);
      assert rx + line.incoming == rx + chunk + line.incoming[line.arrived..];
      rx, received := rx + line.incoming[..line.arrived], received + chunk;
      line.incoming, line.arrived := line.incoming[line.arrived..], 0;
      ExtractsReply(rx, line.incoming, line.world.replies, Extract(rx));
      ListenedTo(received, heard, rx, Extract(rx));
      f := ExtractFrame();
      heard := heard + if f.Some? then [f.value] else [];
    }

    /**
      Collects what the port has until a frame is whole, the time is up or the user cancels. When the time is up,
      nothing is waiting in the port, and what was taken from it holds no good frame any more.
    */
    method ReadFrame(addr: byte, data: seq<byte>, deadline: nat) returns (f: Option<Frame>)
      requires Sendable(data) && Sound(addr, data)
      modifies this, line`world, line`incoming, line`arrived, line`now
      ensures Onward(addr, data)
      ensures f.Some? ==> f.value in line.world.replies && line.now > old(line.now)
      ensures heard == if f.Some? then old(heard) + [f.value] else old(heard)
      ensures f.None? && !cancelled ==> deadline <= line.now
      ensures f.None? ==> received == old(received) || Spoilt(rx)
      ensures f.None? && !cancelled && old(line.now) < deadline ==> line.arrived == 0
      ensures old(cancelled) ==> f.None? && received == old(received)
    {
      f := None;
      while line.now < deadline
        invariant Onward(addr, data)
        invariant f.None? && heard == old(heard)
        invariant received == old(received) || Spoilt(rx)
        invariant old(line.now) < line.now ==> line.arrived == 0
        invariant old(cancelled) ==> received == old(received)
        decreases deadline - line.now
      {
        var stop := PollCancel();
        if stop {
          return;
        }
        line.Drift(addr, data, 0, rx);
        if line.arrived > 0 {
          f := TakeIn(addr, data);
          if f.Some? {
            return;
          }
        }
      }
    }

    /** Listens for a reply to the command until one comes, an error is reported, or the time is up. */
    method WaitReply(addr: byte, data: seq<byte>, cmd: byte, wait: nat) returns (reply: Option<seq<byte>>)
      requires Sendable(data) && Sound(addr, data) && cmd < 0x80
      modifies this, line`world, line`incoming, line`arrived, line`now
      ensures Onward(addr, data)
      ensures reply.Some? ==> Frame(cmd + 0x80, reply.value) in line.world.replies
      ensures Exchange(heard, |old(heard)|, cmd, reply)
      ensures reply.None? && !cancelled ==>
                line.now >= old(line.now) + wait || (old(heard) < heard && heard[|heard| - 1].cmd == 0x7F)
      ensures old(cancelled) ==> reply.None? && received == old(received)
    {
      var deadline := line.now + wait;
      while line.now < deadline
        invariant Onward(addr, data)
        invariant Unheeded(heard, |old(heard)|, |heard|, cmd)
        invariant old(cancelled) ==> received == old(received)
        decreases deadline - line.now
      {
        var stop := PollCancel();
        if stop {
          return None;
        }
        var f := ReadFrame(addr, data, deadline);
        if f.None? {
          return None;
        }
        if f.value.cmd == cmd + 0x80 {
          return Some(f.value.payload);
        }
        if f.value.cmd == Z_ERR {
          return None;
        }
      }
      reply := None;
    }

    /** One transmission, the reply to it if one comes, and the pause after a failure. */
    method Ask(addr: byte, data: seq<byte>, f: Frame, p: Patience, ghost from: nat) returns (reply: Option<seq<byte>>)
      requires Sendable(data) && Sound(addr, data) && f.cmd < 0x80
      requires HostSends(addr, data, f) && (f == SelectFrame(addr) || line.world.replies != {})
      requires from <= |heard| && InVain(heard, from, |heard|, f.cmd, p.persistent) && !cancelled
      modifies this, line
      ensures Onward(addr, data)
      ensures line.log == old(line.log) + [f]
      ensures Concluded(heard, from, f.cmd, p.persistent, Acknowledges(reply))
      ensures reply.None? || (p.persistent && !Acknowledges(reply)) ==>
                InVain(heard, from, |heard|, f.cmd, p.persistent)
      ensures reply.Some? && !Acknowledges(reply) ==> AnsweredLast(heard, from, f.cmd, false)
      ensures Acknowledges(reply) ==> heard[|heard| - 1] in line.world.replies
      ensures reply.None? && !cancelled && heard == old(heard) ==> line.now >= old(line.now) + p.wait + p.pause
    {
      line.Transmit(addr, data, f, rx);
      reply := WaitReply(addr, data, f.cmd, p.wait);
      OutcomeOfATry(old(heard), heard, from, f.cmd, p.persistent, reply);
      if !Acknowledges(reply) && p.pause > 0 {
        line.Drift(addr, data, p.pause, rx);
      }
    }

    /**
      Transmits until the command is acknowledged. A sender that gives up has sent the frame as often as it may,
      or was cancelled, or, unless it is persistent, was refused; a silent line it waits out in full each time.
    */
    method Command(addr: byte, data: seq<byte>, f: Frame, p: Patience) returns (ok: bool, ghost n: nat)
      requires Sendable(data) && Sound(addr, data) && f.cmd < 0x80
      requires HostSends(addr, data, f) && (f == SelectFrame(addr) || line.world.replies != {})
      modifies this, line
      ensures Onward(addr, data)
      ensures n <= p.limit && line.log == old(line.log) + Repeat(f, n)
      ensures ok ==> Tries(n, p.limit) && Acknowledged(line.world.replies, f.cmd)
      ensures Concluded(heard, |old(heard)|, f.cmd, p.persistent, ok)
      ensures old(cancelled) ==> !ok && n == 0 && heard == old(heard)
      ensures !ok && p.persistent && !cancelled ==> n == p.limit
      ensures !ok && !cancelled ==>
                n == p.limit || AnsweredLast(heard, |old(heard)|, f.cmd, false)
      ensures !ok && !cancelled && heard == old(heard) ==> WaitedOut(p, p.limit, old(line.now), line.now)
    {
      ok, n := false, 0;
      for attempt := 0 to p.limit
        invariant Onward(addr, data)
        invariant n == attempt && line.log == old(line.log) + Repeat(f, n)
        invariant !ok && InVain(heard, |old(heard)|, |heard|, f.cmd, p.persistent)
        invariant old(cancelled) ==> n == 0 && heard == old(heard)
        invariant heard == old(heard) && !cancelled ==> WaitedOut(p, n, old(line.now), line.now)
      {
        var stop := PollCancel();
        if stop {
          return;
        }
        ghost var since := line.now;
        RepeatNext(old(line.log), f, n);
        var reply := Ask(addr, data, f, p, |old(heard)|);
        n := n + 1;
        if reply.Some? {
          if ErrorIn(reply.value) == ERR_NONE {
            return true, n;
          }
          if !p.persistent {
            return;
          }
        }
        if heard == old(heard) && !cancelled {
          WaitedOutMore(p, n - 1, old(line.now), since, line.now);
        }
      }
    }

    method SendAbort(addr: byte, data: seq<byte>)
      requires Sendable(data) && Sound(addr, data) && line.world.replies != {}
      modifies this, line
      ensures Onward(addr, data) && line.log == old(line.log) + [AbortFrame(addr)]
      ensures !cancelled && heard == old(heard) ==> line.now >= old(line.now) + 1000
    {
      line.Transmit(addr, data, AbortFrame(addr), rx);
      var reply := WaitReply(addr, data, CMD_ABORT, ABORT_WAIT);
    }

    /** One block, retransmitted until acknowledged; on giving up, an ABORT is the last frame sent. */
    method SendBlock(addr: byte, data: seq<byte>, blk: nat) returns (ok: bool, ghost n: nat)
      requires Sendable(data) && Sound(addr, data) && line.world.replies != {}
      requires Offset(blk) < |data|
      modifies this, line
      ensures Onward(addr, data)
      ensures var sent := old(line.log) + Repeat(DataFrame(addr, blk, Chunk(data, blk)), n);
              if ok then Tries(n, 8) && line.log == sent else line.log == sent + [AbortFrame(addr)]
      ensures ok ==> AnsweredLast(heard, |old(heard)|, 0x09, true)
      ensures !ok ==> Spent(n, 8, cancelled)
      ensures old(cancelled) ==> !ok && n == 0
      ensures !ok && !cancelled && heard == old(heard) ==> line.now >= old(line.now) + 8 * 2000
    {
      var f := DataFrame(addr, blk, Chunk(data, blk));
      assert IsDataFrame(addr, data, blk, f);
      ok, n := false, 0;
      var stop := PollCancel();
      if !stop {
        ok, n := Command(addr, data, f, FOR_DATA);
      }
      if !ok {
        SendAbort(addr, data);
      }
    }

    /**
      The block loop: each chunk in order, the next only after the board has acknowledged one. A loop that fails
      was cancelled or has sent one chunk eight times, and has told the board.
    */
    method SendBlocks(addr: byte, data: seq<byte>) returns (ok: bool, ghost counts: seq<nat>, ghost n: nat)
      requires Sendable(data) && Sound(addr, data) && line.world.replies != {}
      modifies this, line
      ensures Onward(addr, data)
      ensures BlockTries(data, counts)
      ensures ok ==> Offset(|counts|) >= |data| && line.log == old(line.log) + Blocks(addr, data, counts)
      ensures !ok ==> Offset(|counts|) < |data| && Spent(n, 8, cancelled)
                      && line.log == old(line.log) + GivenUp(addr, data, counts, n)
    {
      var blk, offset := 0, 0;
      counts, n := [], 0;
      while offset < |data|
        invariant Onward(addr, data)
        invariant |counts| == blk && BlockTries(data, counts)
        invariant line.log == old(line.log) + Blocks(addr, data, counts)
        invariant if offset < |data| then offset == Offset(blk) else offset == |data| <= Offset(blk)
        decreases |data| - offset
      {
        ghost var log := line.log;
        ok, n := SendBlock(addr, data, blk);
        if !ok {
          BlocksGivenUp(addr, data, counts, n, old(line.log), log, line.log);
          return;
        }
        BlocksNext(addr, data, counts, n, old(line.log), line.log);
        counts := counts + [n];
        offset := offset + |Chunk(data, blk)|;
        blk := blk + 1;
      }
      ok := true;
    }

    /**
      The whole transfer. It answers true only after the board acknowledged END, and then the board has
      committed the image; whatever it answers, every commit there has been is this image. One that fails was
      given a bad file, was cancelled, was refused at START or END, or has used up the tries of some command.
    */
    method Transfer(addr: byte, data: seq<byte>) returns (ok: bool)
      requires Fresh(line.world) && line.log == [] && rx == line.incoming == received == [] && heard == []
      requires line.arrived == 0
      modifies this, line
      ensures ok ==> Sendable(data) && VectorSane(data) && Script(addr, data, line.log)
      ensures ok ==> EndAccepted(line.world) && line.world.commits != []
      ensures ok ==> heard != [] && IsReply(heard[|heard| - 1], 0x0A, 0)
      ensures old(cancelled) ==> !ok && line.log == []
      ensures if 16 <= |data| <= MAX_FW_SIZE && VectorSane(data)
              then AllFaithful(data, line.world.calm, line.world.commits)
              else line.world == old(line.world) && line.log == []
      ensures !ok && Sendable(data) && VectorSane(data) ==> Failed(addr, data, line.log, heard, cancelled)
      ensures !ok && Sendable(data) && VectorSane(data) && !cancelled && heard == [] ==>
                line.now >= old(line.now) + 8 * 2300
    {
      if |data| == 0 || |data| > MAX_FW_SIZE {
        return false;
      }
      var sane := CheckAppImage(data);
      if !sane {
        return false;
      }
      ok := Converse(addr, data);
    }

    method Start(addr: byte, data: seq<byte>) returns (ok: bool, ghost n: nat)
      requires Sendable(data) && Sound(addr, data) && line.world.replies != {}
      modifies this, line
      ensures Onward(addr, data) && line.log == old(line.log) + Repeat(StartFrame(addr, |data|, Sum32(data)), n)
      ensures ok ==> Tries(n, 4) && AnsweredLast(heard, |old(heard)|, 0x08, true)
      ensures !ok ==> Spent(n, 4, cancelled || Refused(heard, 0x08))
      ensures Concluded(heard, |old(heard)|, 0x08, false, ok) && (old(cancelled) ==> n == 0)
      ensures !ok && !cancelled && heard == old(heard) ==> line.now >= old(line.now) + 4 * 5000
    {
      ok, n := Command(addr, data, StartFrame(addr, |data|, Sum32(data)), FOR_START);
      if !ok {
        GivenUpTries(n, FOR_START, heard, CMD_START, cancelled);
      }
    }

    /** SELECT and START. */
    method Open(addr: byte, data: seq<byte>) returns (ok: bool, ghost n0: nat, ghost n1: nat)
      requires Sendable(data) && Sound(addr, data) && line.log == []
      modifies this, line
      ensures Onward(addr, data)
      ensures ok ==> Tries(n0, 8) && Tries(n1, 4) && line.log == Opening(addr, data, n0, n1) && line.world.replies != {}
      ensures ok ==> heard != []
      ensures !ok ==> Failed(addr, data, line.log, heard, cancelled)
      ensures old(cancelled) ==> !ok && line.log == []
      ensures !ok && !cancelled && heard == old(heard) ==> line.now >= old(line.now) + 8 * 2300
    {
      n1 := 0;
      ok, n0 := Command(addr, data, SelectFrame(addr), FOR_SELECT);
      if !ok {
        SelectHasFailed(addr, data, n0, line.log, heard, cancelled);
        return;
      }
      ok, n1 := Start(addr, data);
      if !ok {
        StartHasFailed(addr, data, n0, n1, line.log, heard, cancelled);
      }
    }

    /** END, after all blocks. */
    method End(addr: byte, data: seq<byte>) returns (ok: bool, ghost n: nat)
      requires Sendable(data) && Sound(addr, data) && line.world.replies != {}
      modifies this, line
      ensures Onward(addr, data) && line.log == old(line.log) + Repeat(EndFrame(addr), n)
      ensures ok ==> Tries(n, 4) && EndAccepted(line.world) && AnsweredLast(heard, |old(heard)|, CMD_END, true)
      ensures !ok ==> Spent(n, 4, cancelled || Refused(heard, CMD_END))
      ensures Concluded(heard, |old(heard)|, 0x0A, false, ok) && (old(cancelled) ==> n == 0)
      ensures !ok && !cancelled && heard == old(heard) ==> line.now >= old(line.now) + 4 * 30000
    {
      ok, n := Command(addr, data, EndFrame(addr), FOR_END);
      if !ok {
        GivenUpTries(n, FOR_END, heard, CMD_END, cancelled);
      }
    }

    method Converse(addr: byte, data: seq<byte>) returns (ok: bool)
      requires Sendable(data) && Fresh(line.world) && line.log == []
      requires rx == line.incoming == received == [] && heard == [] && line.arrived == 0
      modifies this, line
      ensures Sound(addr, data)
      ensures ok ==> EndAccepted(line.world) && Script(addr, data, line.log)
      ensures ok ==> AnsweredLast(heard, 0, CMD_END, true)
      ensures !ok ==> Failed(addr, data, line.log, heard, cancelled)
      ensures old(cancelled) ==> !ok && line.log == []
      ensures !ok && !cancelled && heard == [] ==> line.now >= old(line.now) + 8 * 2300
    {
      CarriesNothing(line.world.replies);
      ListenedFromTheStart();
      ghost var n0, n1, n, n2, counts;
      ok, n0, n1 := Open(addr, data);
      if ok {
        ghost var opening := line.log;
        ok, counts, n := SendBlocks(addr, data);
        if ok {
          ghost var before := line.log;
          ok, n2 := End(addr, data);
          Ended(addr, data, n0, n1, counts, n2, before, line.log, heard, cancelled, ok);
        } else {
          DataHasFailed(addr, data, n0, n1, counts, n, opening, line.log, heard, cancelled);
        }
      }
    }
  }

  lemma BlocksGivenUp(
      addr: byte, data: seq<byte>, counts: seq<nat>, n: nat, base: seq<Frame>, before: seq<Frame>, log: seq<Frame>)
    requires Sendable(data) && BlockTries(data, counts) && Offset(|counts|) < |data|
    requires before == base + Blocks(addr, data, counts)
    requires log == before + Repeat(DataFrame(addr, |counts|, Chunk(data, |counts|)), n) + [AbortFrame(addr)]
    ensures log == base + GivenUp(addr, data, counts, n)
  {}

  lemma ScriptIsFollowed(
      addr: byte, data: seq<byte>, n0: nat, n1: nat, counts: seq<nat>, n2: nat, log2: seq<Frame>, log: seq<Frame>)
    requires Sendable(data) && Tries(n0, 8) && Tries(n1, 4) && BlockTries(data, counts) && Tries(n2, 4)
    requires Offset(|counts|) >= |data|
    requires log2 == Opening(addr, data, n0, n1) + Blocks(addr, data, counts)
    requires log == log2 + Repeat(EndFrame(addr), n2)
    ensures Script(addr, data, log)
  {}

  lemma BlocksNext(addr: byte, data: seq<byte>, counts: seq<nat>, n: nat, base: seq<Frame>, log: seq<Frame>)
    requires Sendable(data) && BlockTries(data, counts) && Offset(|counts|) < |data|
    requires log == base + Blocks(addr, data, counts) + Repeat(DataFrame(addr, |counts|, Chunk(data, |counts|)), n)
    ensures Offset(|counts + [n]|) < |data| + DATA_MAX
    ensures log == base + Blocks(addr, data, counts + [n])
  {
    var more := counts + [n];
    assert more[..|more| - 1] == counts;
  }
}

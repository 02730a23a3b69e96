/**
  One firmware transfer: the host's sender, a channel that may lose, duplicate, delay and reorder
  frames in both directions, and a board whose flash may fail and whose power may be cut.

  The channel is the set of all frames ever sent each way; any of them may arrive at any time, any
  number of times, or never.
*/
module Transfer {
  import opened Bytes
  import opened Crc
  import opened Frames
  import opened AppImage
  import opened Session

  const MAX_FW_SIZE: nat := 0x18000

  // ---------- the host's frames ----------

  function SelectFrame(addr: byte): Frame {
    Frame(CMD_SELECT, [addr, 1])
  }

  function StartFrame(addr: byte, size: nat, sum: nat): Frame
    requires size < 0x1_0000_0000 && sum < 0x1_0000_0000
  {
    Frame(CMD_START, [addr] + ToLE32(size) + ToLE32(sum))
  }

  function DataFrame(addr: byte, blk: nat, chunk: seq<byte>): Frame
    requires blk < 65536
  {
    Frame(CMD_DATA, [addr] + ToLE16(blk) + ToLE16(Crc16(chunk)) + chunk)
  }

  function EndFrame(addr: byte): Frame {
    Frame(CMD_END, [addr])
  }

  function AbortFrame(addr: byte): Frame {
    Frame(CMD_ABORT, [addr])
  }

  /** The frames on the wire, octet by octet, up to their checksum and newline. */
  lemma WireFormat(addr: byte, size: nat, sum: nat, blk: nat, chunk: seq<byte>)
    requires size < 0x1_0000_0000 && sum < 0x1_0000_0000 && blk < 65536 && 1 <= |chunk| <= 248
    ensures Body(SelectFrame(addr)) == [0x7A, 0x06, 2, addr, 1]
    ensures Body(EndFrame(addr)) == [0x7A, 0x0A, 1, addr] && Body(AbortFrame(addr)) == [0x7A, 0x0B, 1, addr]
    ensures var s := Body(StartFrame(addr, size, sum));
            |s| == 12 && s[..4] == [0x7A, 0x08, 9, addr] && Word32(s, 4) == size && Word32(s, 8) == sum
    ensures var s, crc := Body(DataFrame(addr, blk, chunk)), Crc16(chunk);
            s == [0x7A, 0x09, |chunk| + 5, addr, blk % 256, blk / 256, crc % 256, crc / 256] + chunk
    ensures forall f: Frame :: |f.payload| < 256 ==> BuildFrame(f) == Body(f) + [Crc8(Body(f)), 0x0A]
  {
    StartFormat(addr, size, sum);
  }

  lemma StartFormat(addr: byte, size: nat, sum: nat)
    requires size < 0x1_0000_0000 && sum < 0x1_0000_0000
    ensures var s := Body(StartFrame(addr, size, sum));
            |s| == 12 && s[..4] == [0x7A, 0x08, 9, addr] && Word32(s, 4) == size && Word32(s, 8) == sum
  {
    var s := Body(StartFrame(addr, size, sum));
    assert s == [0x7A, 0x08, 9, addr] + ToLE32(size) + ToLE32(sum);
    assert s[4..8] == ToLE32(size) && s[8..12] == ToLE32(sum);
  }

  /** Block blk of the image: 248 octets, or what remains. */
  function Chunk(data: seq<byte>, blk: nat): (c: seq<byte>)
    requires Offset(blk) < |data|
    ensures 1 <= |c| <= 248
    ensures |c| == 248 || Offset(blk) + |c| == |data|
  {
    if Offset(blk) + DATA_MAX <= |data| then data[Offset(blk)..Offset(blk) + DATA_MAX] else data[Offset(blk)..]
  }

  predicate Sendable(data: seq<byte>) {
    16 <= |data| <= MAX_FW_SIZE
  }

  /** Everything the host may put on the wire during the transfer of data to addr. */
  ghost predicate HostSends(addr: byte, data: seq<byte>, f: Frame)
    requires Sendable(data)
  {
    || f == SelectFrame(addr)
    || f == StartFrame(addr, |data|, Sum32(data))
    || f == EndFrame(addr)
    || f == AbortFrame(addr)
    || exists blk: nat :: IsDataFrame(addr, data, blk, f)
  }

  ghost predicate IsDataFrame(addr: byte, data: seq<byte>, blk: nat, f: Frame) {
    Offset(blk) < |data| <= MAX_FW_SIZE && f == DataFrame(addr, blk, Chunk(data, blk))
  }

  // ---------- what the board holds while it downloads ----------

  ghost predicate ChunksOf(data: seq<byte>, blocks: seq<seq<byte>>) {
    forall i :: 0 <= i < |blocks| ==> Offset(i) < |data| && blocks[i] == Chunk(data, i)
  }

  /** calm: no erase has failed since the transfer began. */
  ghost predicate Loading(s: State, t: Track, data: seq<byte>, calm: bool) {
    && |s.slot| == APP_SIZE
    && (s.downloading ==>
      Inv(s, t) && s.fwSize == |data| && ChunksOf(data, t.blocks) && (calm ==> t.accepted))
  }

  lemma PrefixGrows(data: seq<byte>, n: nat, c: seq<byte>)
    requires n + |c| <= |data| && c == data[n..n + |c|]
    ensures data[..n] + c == data[..n + |c|]
  {}

  lemma LastOfConcat(blocks: seq<seq<byte>>)
    requires blocks != []
    ensures Concat(blocks) == Concat(blocks[..|blocks| - 1]) + blocks[|blocks| - 1]
  {}

  lemma ChunkIsSlice(data: seq<byte>, blk: nat)
    requires Offset(blk) < |data|
    ensures var c := Chunk(data, blk); Offset(blk) + |c| <= |data| && c == data[Offset(blk)..Offset(blk) + |c|]
  {}

  /** However many chunks have been taken, they are a prefix of the image, and a full one unless they are all of it. */
  lemma {:induction false} ChunksAssemble(data: seq<byte>, blocks: seq<seq<byte>>)
    requires ChunksOf(data, blocks)
    ensures |Concat(blocks)| <= |data| && Concat(blocks) == data[..|Concat(blocks)|]
    ensures |Concat(blocks)| == Offset(|blocks|) || |Concat(blocks)| == |data| <= Offset(|blocks|)
  {
    if blocks != [] {
      var n := |blocks| - 1;
      ChunksAssemble(data, blocks[..n]);
      assert blocks[n] == Chunk(data, n);
      ChunkIsSlice(data, n);
      LastOfConcat(blocks);
      PrefixGrows(data, Offset(n), blocks[n]);
    }
  }

  /** Once every byte of the image has been acknowledged the slot holds the image. */
  lemma CompleteDownload(s: State, t: Track, data: seq<byte>, calm: bool)
    requires Sendable(data) && Loading(s, t, data, calm) && s.downloading && s.rxBytes == s.fwSize
    ensures s.upgOffset == |data| <= APP_SIZE && s.slot[..|data|] == data
    ensures calm ==> s.upgChecksum == Sum32(data)
  {
    ChunksAssemble(data, t.blocks);
    assert data[..|data|] == data;
    AllChunksButLastAreFull(data, t.blocks);
    NoGaps(t.blocks);
    SlotHoldsConcat(s.slot, t.blocks);
  }

  lemma AllChunksButLastAreFull(data: seq<byte>, blocks: seq<seq<byte>>)
    requires ChunksOf(data, blocks)
    ensures AllButLastFull(blocks)
  {
    forall i | 0 <= i < |blocks| - 1 ensures |blocks[i]| == DATA_MAX {
      assert blocks[i] == Chunk(data, i) && blocks[i + 1] == Chunk(data, i + 1);
    }
  }

  // ---------- one delivery ----------

  lemma StartBodyDecodes(addr: byte, size: nat, sum: nat)
    requires size < 0x1_0000_0000 && sum < 0x1_0000_0000
    ensures var body := BodyOf(StartFrame(addr, size, sum));
            |body| == 8 && LE32(body[..4]) == size && LE32(body[4..]) == sum
  {
    var body := BodyOf(StartFrame(addr, size, sum));
    assert body == ToLE32(size) + ToLE32(sum);
    assert body[..4] == ToLE32(size) && body[4..] == ToLE32(sum);
  }

  lemma DataBodyDecodes(addr: byte, blk: nat, chunk: seq<byte>)
    requires blk < 65536
    ensures var body := BodyOf(DataFrame(addr, blk, chunk));
            |body| == |chunk| + 4 && LE16(body[..2]) == blk && body[4..] == chunk && LE16(body[2..4]) == Crc16(chunk)
  {
    var body := BodyOf(DataFrame(addr, blk, chunk));
    assert body == ToLE16(blk) + ToLE16(Crc16(chunk)) + chunk;
    assert body[..2] == ToLE16(blk) && body[2..4] == ToLE16(Crc16(chunk)) && body[4..] == chunk;
  }

  /** The first accepted START puts the session and the record in step, whatever state it found. */
  lemma BeginLoads(s: State, t: Track, data: seq<byte>, sum: nat, fate: FlashFate, calm: bool)
    requires Sendable(data) && Loading(s, t, data, calm) && SlotSized(s, fate)
    ensures var a := Begin(s, |data|, sum, fate);
            && (a.err == ERR_NONE <==> fate.eraseOk)
            && Loading(a.state,
                       if a.err == ERR_NONE then Track(true, 0, 0, [])
                       else Track(false, s.upgChecksum, s.upgOffset, []),
                       data, calm && fate.eraseOk)
  {
    if s.downloading {
      BeginKeepsInv(s, t, |data|, sum, fate);
    }
  }

  lemma StartKeepsLoading(s: State, t: Track, addr: byte, data: seq<byte>, fate: FlashFate, calm: bool)
    requires Sendable(data) && Loading(s, t, data, calm) && SlotSized(s, fate)
    ensures var f := StartFrame(addr, |data|, Sum32(data));
            Loading(Dispatch(s, f, fate).state, Observe(t, s, f, fate), data, calm && fate.eraseOk)
  {
    var f := StartFrame(addr, |data|, Sum32(data));
    StartBodyDecodes(addr, |data|, Sum32(data));
    if ExaminesStart(s, f) {
      StartObeyed(s, f, fate);
      BeginLoads(Identified(s, f), t, data, Sum32(data), fate, calm);
    } else if Addressed(s, f) {
      DispatchObeys(s, f, fate);
    }
  }

  lemma ChunksGrow(data: seq<byte>, blocks: seq<seq<byte>>)
    requires ChunksOf(data, blocks) && Offset(|blocks|) < |data|
    ensures ChunksOf(data, blocks + [Chunk(data, |blocks|)])
  {}

  lemma DataKeepsLoading(s: State, t: Track, addr: byte, data: seq<byte>, blk: nat, fate: FlashFate, calm: bool)
    requires Sendable(data) && Loading(s, t, data, calm) && SlotSized(s, fate)
    requires Offset(blk) < |data|
    ensures var f := DataFrame(addr, blk, Chunk(data, blk));
            Loading(Dispatch(s, f, fate).state, Observe(t, s, f, fate), data, calm)
  {
    var f := DataFrame(addr, blk, Chunk(data, blk));
    if s.downloading {
      DataBodyDecodes(addr, blk, Chunk(data, blk));
      DispatchKeepsInv(s, t, f, fate);
      DataKeepsDeclaration(s, f, fate);
      if blk == |t.blocks| {
        ChunksGrow(data, t.blocks);
      }
    } else if Addressed(s, f) {
      DispatchObeys(s, f, fate);
    }
  }

  lemma DataKeepsDeclaration(s: State, f: Frame, fate: FlashFate)
    requires SlotSized(s, fate) && f.cmd == CMD_DATA
    ensures var u := Dispatch(s, f, fate).state;
            u.fwSize == s.fwSize && u.downloading == s.downloading && |u.slot| == APP_SIZE
  {
    if Addressed(s, f) {
      DispatchObeys(s, f, fate);
      var u, body := Identified(s, f), BodyOf(f);
      if u.downloading && |body| >= 4 {
        AttemptKeepsDeclaration(u, LE16(body[..2]), Crc16(body[4..]) == LE16(body[2..4]), body[4..], fate);
      }
    }
  }

  lemma AttemptKeepsDeclaration(s: State, blk: nat, intact: bool, data: seq<byte>, fate: FlashFate)
    requires SlotSized(s, fate)
    ensures var u := DataAttempt(s, blk, intact, data, fate).state;
            u.fwSize == s.fwSize && u.downloading == s.downloading && |u.slot| == APP_SIZE
  {}

  lemma OtherKeepsLoading(s: State, t: Track, addr: byte, data: seq<byte>, f: Frame, fate: FlashFate, calm: bool)
    requires Sendable(data) && Loading(s, t, data, calm) && SlotSized(s, fate)
    requires f in {SelectFrame(addr), EndFrame(addr), AbortFrame(addr)}
    ensures Loading(Dispatch(s, f, fate).state, Observe(t, s, f, fate), data, calm)
  {
    if Addressed(s, f) {
      DispatchObeys(s, f, fate);
    }
  }

  /** Whatever frame of the transfer arrives, however late or often, the download stays on the image. */
  lemma DeliveryKeepsLoading(s: State, t: Track, addr: byte, data: seq<byte>, f: Frame, fate: FlashFate, calm: bool)
    requires Sendable(data) && HostSends(addr, data, f) && Loading(s, t, data, calm) && SlotSized(s, fate)
    ensures Loading(Dispatch(s, f, fate).state, Observe(t, s, f, fate), data, calm && fate.eraseOk)
  {
    if f == StartFrame(addr, |data|, Sum32(data)) {
      StartKeepsLoading(s, t, addr, data, fate, calm);
    } else if blk: nat :| IsDataFrame(addr, data, blk, f) {
      DataKeepsLoading(s, t, addr, data, blk, fate, calm);
    } else {
      OtherKeepsLoading(s, t, addr, data, f, fate, calm);
    }
  }

  /** Every commit of the transfer is the whole image, with its own checksum if no erase has failed. */
  lemma TransferCommitIsFaithful(s: State, t: Track, data: seq<byte>, f: Frame, fate: FlashFate, calm: bool,
                                 size: nat, sum: nat)
    requires Sendable(data) && Loading(s, t, data, calm) && SlotSized(s, fate)
    requires Commit(size, sum) in Dispatch(s, f, fate).actions
    ensures size == |data| <= APP_SIZE && s.slot[..size] == data && Dispatch(s, f, fate).state.slot == s.slot
    ensures calm ==> sum == Sum32(data)
  {
    CommitComesFromEnd(s, f, fate, size, sum);
    CompleteDownload(s, t, data, calm);
    DispatchObeys(s, f, fate);
  }

  /** A successful reply to END is given only together with a commit. */
  lemma EndAcceptedCommits(s: State, t: Track, addr: byte, data: seq<byte>, fate: FlashFate, calm: bool)
    requires Sendable(data) && Loading(s, t, data, calm) && SlotSized(s, fate)
    requires Succeeds(Dispatch(s, EndFrame(addr), fate))
    ensures Commit(s.upgOffset, s.upgChecksum) in Dispatch(s, EndFrame(addr), fate).actions
  {
    var f := EndFrame(addr);
    if Addressed(s, f) {
      DispatchObeys(s, f, fate);
      CompleteDownload(s, t, data, calm);
      var o := Obey(Identified(s, f), f.cmd, BodyOf(f), fate);
      assert Commit(s.upgOffset, s.upgChecksum) in o.actions;
    }
  }

  // ---------- the whole system ----------

  datatype Committed = Committed(size: nat, sum: nat, image: seq<byte>)

  /**
    state, track: the board and its bystander. sent, replies: every frame ever put on the wire in
    either direction. calm: no erase has failed. armed: the board has answered a SELECT.
  */
  datatype World = World(
    state: State, track: Track, sent: set<Frame>, replies: set<Frame>, commits: seq<Committed>,
    calm: bool, armed: bool)

  datatype Event = Send(frame: Frame) | Deliver(frame: Frame, fate: FlashFate) | PowerCycle(myId: byte, slot: seq<byte>)

  /** The host speaks past SELECT only once it has heard a reply; only what was sent can arrive. */
  ghost predicate Possible(w: World, addr: byte, data: seq<byte>, e: Event)
    requires Sendable(data)
  {
    match e
    case Send(f) => HostSends(addr, data, f) && (f == SelectFrame(addr) || w.replies != {})
    case Deliver(f, fate) => f in w.sent && |fate.noise| == APP_SIZE
    case PowerCycle(_, slot) => |slot| == APP_SIZE
  }

  function CommitsIn(actions: seq<Action>, slot: seq<byte>): seq<Committed> {
    if actions == [] then []
    else
      var rest := CommitsIn(actions[1..], slot);
      if actions[0].Commit? && actions[0].size <= |slot|
      then [Committed(actions[0].size, actions[0].sum, slot[..actions[0].size])] + rest else rest
  }

  function Arrive(w: World, f: Frame, fate: FlashFate): World
    requires SlotSized(w.state, fate)
  {
    var o := Dispatch(w.state, f, fate);
    World(
      o.state, Observe(w.track, w.state, f, fate), w.sent,
      w.replies + (if o.reply.Some? then {o.reply.value} else {}),
      w.commits + CommitsIn(o.actions, o.state.slot),
      w.calm && fate.eraseOk, w.armed || o.reply.Some?)
  }

  function Next(w: World, e: Event): World
    requires e.Deliver? ==> SlotSized(w.state, e.fate)
  {
    match e
    case Send(f) => w.(sent := w.sent + {f})
    case Deliver(f, fate) => Arrive(w, f, fate)
    case PowerCycle(myId, slot) => w.(state := Init(myId, slot))
  }

  /** An answer stays on the wire for good, beside all earlier ones. */
  lemma AnswersStayOnTheWire(w: World, f: Frame, fate: FlashFate)
    requires SlotSized(w.state, fate)
    ensures var o, n := Dispatch(w.state, f, fate), Next(w, Deliver(f, fate));
            && w.sent == n.sent && w.replies <= n.replies && w.commits <= n.commits
            && (o.reply.Some? ==> o.reply.value in n.replies)
  {}

  /** A power cycle leaves nothing of the session, and loses nothing that is on the wire. */
  lemma PowerCycleForgets(w: World, myId: byte, slot: seq<byte>)
    requires |slot| == APP_SIZE
    ensures var n := Next(w, PowerCycle(myId, slot));
            && n.state.myId == myId && n.state.slot == slot && !n.state.selected && !n.state.downloading
            && n.sent == w.sent && n.replies == w.replies && n.commits == w.commits
  {}

  ghost predicate Faithful(data: seq<byte>, calm: bool, c: Committed) {
    c.size == |data| && c.image == data && (calm ==> c.sum == Sum32(data))
  }

  ghost predicate AllFaithful(data: seq<byte>, calm: bool, commits: seq<Committed>) {
    forall i :: 0 <= i < |commits| ==> Faithful(data, calm, commits[i])
  }

  predicate IsReply(f: Frame, cmd: byte, err: byte) {
    f.cmd == cmd + REPLY_FLAG && |f.payload| >= 2 && f.payload[1] == err
  }

  ghost predicate EndAccepted(w: World) {
    exists r :: r in w.replies && IsReply(r, CMD_END, ERR_NONE)
  }

  ghost predicate Safe(w: World, addr: byte, data: seq<byte>)
    requires Sendable(data)
  {
    && |w.state.slot| == APP_SIZE
    && (forall f :: f in w.sent ==> HostSends(addr, data, f))
    && (w.armed ==> Loading(w.state, w.track, data, w.calm))
    && (!w.armed ==> w.replies == {} && w.commits == [] && forall f :: f in w.sent ==> f == SelectFrame(addr))
    && AllFaithful(data, w.calm, w.commits)
    && (EndAccepted(w) ==> w.commits != [])
    && (forall r :: r in w.replies ==> |r.payload| <= PAYLOAD_MAX)
  }

  ghost predicate Fresh(w: World) {
    |w.state.slot| == APP_SIZE && w.sent == {} && w.replies == {} && w.commits == [] && w.calm && !w.armed
  }

  // ---------- every schedule is safe ----------

  lemma FirstReplyArms(s: State, addr: byte, data: seq<byte>, fate: FlashFate)
    requires SlotSized(s, fate)
    ensures var o := Dispatch(s, SelectFrame(addr), fate);
            && (o.reply.Some? ==> !o.state.downloading)
            && |o.state.slot| == APP_SIZE
            && (o.reply.Some? ==> o.reply.value.cmd == CMD_SELECT + REPLY_FLAG)
            && CommitsIn(o.actions, o.state.slot) == []
  {
    if Addressed(s, SelectFrame(addr)) {
      DispatchObeys(s, SelectFrame(addr), fate);
    }
  }

  lemma ArriveBeforeArming(w: World, addr: byte, data: seq<byte>, fate: FlashFate)
    requires Sendable(data) && Safe(w, addr, data) && !w.armed && SlotSized(w.state, fate)
    requires HostSends(addr, data, SelectFrame(addr))
    ensures Safe(Arrive(w, SelectFrame(addr), fate), addr, data)
  {
    FirstReplyArms(w.state, addr, data, fate);
    RepliesAreIdentified(w.state, SelectFrame(addr), fate);
  }

  lemma {:induction false} CommitsInAreCommits(actions: seq<Action>, slot: seq<byte>)
    ensures forall i :: 0 <= i < |CommitsIn(actions, slot)| ==>
      var c := CommitsIn(actions, slot)[i];
      Commit(c.size, c.sum) in actions && c.size <= |slot| && c.image == slot[..c.size]
    ensures forall size: nat, sum: nat ::
              Commit(size, sum) in actions && size <= |slot| ==> CommitsIn(actions, slot) != []
  {
    if actions != [] {
      CommitsInAreCommits(actions[1..], slot);
    }
  }

  lemma ArrivalCommitsFaithfully(w: World, addr: byte, data: seq<byte>, f: Frame, fate: FlashFate)
    requires Sendable(data) && Safe(w, addr, data) && w.armed && SlotSized(w.state, fate)
    ensures var o := Dispatch(w.state, f, fate);
            AllFaithful(data, w.calm, CommitsIn(o.actions, o.state.slot))
  {
    var o := Dispatch(w.state, f, fate);
    var cs := CommitsIn(o.actions, o.state.slot);
    CommitsInAreCommits(o.actions, o.state.slot);
    forall i | 0 <= i < |cs| ensures Faithful(data, w.calm, cs[i]) {
      TransferCommitIsFaithful(w.state, w.track, data, f, fate, w.calm, cs[i].size, cs[i].sum);
    }
  }

  lemma ArrivalAnswersEnd(w: World, addr: byte, data: seq<byte>, f: Frame, fate: FlashFate)
    requires Sendable(data) && HostSends(addr, data, f) && Safe(w, addr, data) && w.armed && SlotSized(w.state, fate)
    ensures var o := Dispatch(w.state, f, fate);
            o.reply.Some? && IsReply(o.reply.value, CMD_END, ERR_NONE) ==> CommitsIn(o.actions, o.state.slot) != []
  {
    var o := Dispatch(w.state, f, fate);
    if o.reply.Some? && IsReply(o.reply.value, CMD_END, ERR_NONE) {
      RepliesAreIdentified(w.state, f, fate);
      assert f == EndFrame(addr);
      EndAcceptedCommits(w.state, w.track, addr, data, fate, w.calm);
      TransferCommitIsFaithful(w.state, w.track, data, f, fate, w.calm, w.state.upgOffset, w.state.upgChecksum);
      CommitsInAreCommits(o.actions, o.state.slot);
    }
  }

  lemma FaithfulnessAppends(data: seq<byte>, calm: bool, still: bool, commits: seq<Committed>, more: seq<Committed>)
    requires AllFaithful(data, calm, commits) && AllFaithful(data, calm, more)
    requires still ==> calm
    ensures AllFaithful(data, still, commits + more)
  {}

  lemma RepliesGrow(w: World, o: Outcome)
    requires EndAccepted(w.(replies := w.replies + (if o.reply.Some? then {o.reply.value} else {})))
    ensures EndAccepted(w) || (o.reply.Some? && IsReply(o.reply.value, CMD_END, ERR_NONE))
  {}

  lemma ArriveIsSafe(w: World, addr: byte, data: seq<byte>, f: Frame, fate: FlashFate)
    requires Sendable(data) && HostSends(addr, data, f) && Safe(w, addr, data) && w.armed && SlotSized(w.state, fate)
    ensures Safe(Arrive(w, f, fate), addr, data)
  {
    var o, u := Dispatch(w.state, f, fate), Arrive(w, f, fate);
    assert Loading(u.state, u.track, data, u.calm) by {
      DeliveryKeepsLoading(w.state, w.track, addr, data, f, fate, w.calm);
    }
    var cs := CommitsIn(o.actions, o.state.slot);
    assert AllFaithful(data, u.calm, u.commits) by {
      ArrivalCommitsFaithfully(w, addr, data, f, fate);
      FaithfulnessAppends(data, w.calm, u.calm, w.commits, cs);
    }
    RepliesAreIdentified(w.state, f, fate);
    if EndAccepted(u) {
      RepliesGrow(w, o);
      ArrivalAnswersEnd(w, addr, data, f, fate);
    }
  }

  /** One event of the adversary keeps the system safe. */
  lemma NextIsSafe(w: World, addr: byte, data: seq<byte>, e: Event)
    requires Sendable(data) && Safe(w, addr, data) && Possible(w, addr, data, e)
    ensures Safe(Next(w, e), addr, data)
  {
    if e.Deliver? {
      if w.armed {
        ArriveIsSafe(w, addr, data, e.frame, e.fate);
      } else {
        ArriveBeforeArming(w, addr, data, e.fate);
      }
    }
  }

  /** worlds is a run: a fresh start and one possible event between neighbours. */
  ghost predicate Schedule(worlds: seq<World>, events: seq<Event>, addr: byte, data: seq<byte>)
    requires Sendable(data)
  {
    && |worlds| == |events| + 1
    && Fresh(worlds[0])
    && forall i :: 0 <= i < |events| ==>
      && Possible(worlds[i], addr, data, events[i])
      && (events[i].Deliver? ==> SlotSized(worlds[i].state, events[i].fate))
      && worlds[i + 1] == Next(worlds[i], events[i])
  }

  /**
    End-to-end integrity. Over every schedule of lost, duplicated, delayed and reordered frames,
    flash faults and power cycles: each commit is the whole image, with the image's checksum unless
    an erase failed, and END is acknowledged only if there has been a commit.
  */
  lemma {:induction false} EveryScheduleIsFaithful(
      worlds: seq<World>, events: seq<Event>, addr: byte, data: seq<byte>, k: nat)
    requires Sendable(data) && Schedule(worlds, events, addr, data) && k <= |events|
    ensures AllFaithful(data, worlds[k].calm, worlds[k].commits)
    ensures EndAccepted(worlds[k]) ==> worlds[k].commits != []
    ensures Safe(worlds[k], addr, data)
  {
    if k > 0 {
      EveryScheduleIsFaithful(worlds, events, addr, data, k - 1);
      assert worlds[k] == Next(worlds[k - 1], events[k - 1]);
      NextIsSafe(worlds[k - 1], addr, data, events[k - 1]);
    }
  }

  // ---------- an undisturbed transfer succeeds ----------

  /** The flash does what it was asked: chunk lands at block blk. */
  predicate Lands(fate: FlashFate, blk: nat, chunk: seq<byte>) {
    && |fate.noise| == APP_SIZE && fate.writeOk
    && Fits(blk, |chunk|) && fate.noise[Offset(blk)..Offset(blk) + |chunk|] == chunk
  }

  function Landing(slot: seq<byte>, blk: nat, chunk: seq<byte>): (fate: FlashFate)
    requires |slot| == APP_SIZE && Fits(blk, |chunk|)
    ensures Lands(fate, blk, chunk)
  {
    var noise := slot[..Offset(blk)] + chunk + slot[Offset(blk) + |chunk|..];
    assert noise[Offset(blk)..Offset(blk) + |chunk|] == chunk;
    FlashFate(true, true, noise)
  }

  lemma LandedReadsBack(slot: seq<byte>, blk: nat, chunk: seq<byte>, fate: FlashFate)
    requires |slot| == APP_SIZE && Lands(fate, blk, chunk)
    ensures ReadsBack(Programmed(slot, blk, |chunk|, fate), blk, chunk)
  {
    var off, written := Offset(blk), Programmed(slot, blk, |chunk|, fate);
    PaddedFits(blk, |chunk|);
    forall i | off <= i < off + |chunk| ensures written[i] == fate.noise[i] {}
    assert written[off..off + |chunk|] == fate.noise[off..off + |chunk|];
  }

  lemma CleanAttempt(s: State, blk: nat, chunk: seq<byte>, fate: FlashFate)
    requires |s.slot| == APP_SIZE && Lands(fate, blk, chunk) && blk == s.expectedBlk
    ensures DataAttempt(s, blk, true, chunk, fate).err == ERR_NONE
  {
    LandedReadsBack(s.slot, blk, chunk, fate);
  }

  ghost predicate Receiving(s: State, t: Track, addr: byte, data: seq<byte>, k: nat) {
    Loading(s, t, data, true) && s.downloading && |t.blocks| == k && Addressed(s, EndFrame(addr))
  }

  function NextData(s: State, addr: byte, data: seq<byte>, k: nat): Outcome
    requires |s.slot| == APP_SIZE && Offset(k) < |data| <= APP_SIZE
  {
    ChunkIsSlice(data, k);
    Dispatch(s, DataFrame(addr, k, Chunk(data, k)), Landing(s.slot, k, Chunk(data, k)))
  }

  lemma IntactDataObeyed(s: State, addr: byte, blk: nat, chunk: seq<byte>, fate: FlashFate)
    requires SlotSized(s, fate) && Addressed(s, EndFrame(addr)) && s.downloading && blk < 65536
    ensures var o := Dispatch(s, DataFrame(addr, blk, chunk), fate);
            var a := DataAttempt(Identified(s, EndFrame(addr)), blk, true, chunk, fate);
            o.state == a.state && (Succeeds(o) <==> a.err == ERR_NONE)
  {
    DataBodyDecodes(addr, blk, chunk);
    DataObeyed(s, DataFrame(addr, blk, chunk), fate);
  }

  lemma CleanBlockSucceeds(s: State, addr: byte, k: nat, chunk: seq<byte>, fate: FlashFate)
    requires SlotSized(s, fate) && s.downloading && s.expectedBlk == k < 65536
    requires Addressed(s, EndFrame(addr)) && Lands(fate, k, chunk)
    ensures Succeeds(Dispatch(s, DataFrame(addr, k, chunk), fate))
  {
    IntactDataObeyed(s, addr, k, chunk, fate);
    CleanAttempt(Identified(s, EndFrame(addr)), k, chunk, fate);
  }

  lemma CleanBlockIsObserved(s: State, t: Track, addr: byte, k: nat, chunk: seq<byte>, fate: FlashFate)
    requires SlotSized(s, fate) && s.downloading && s.expectedBlk == k < 65536 && Addressed(s, EndFrame(addr))
    requires Succeeds(Dispatch(s, DataFrame(addr, k, chunk), fate))
    ensures Observe(t, s, DataFrame(addr, k, chunk), fate) == t.(blocks := t.blocks + [chunk])
  {
    DataBodyDecodes(addr, k, chunk);
  }

  lemma CleanBlock(s: State, t: Track, addr: byte, data: seq<byte>, k: nat)
    requires Sendable(data) && Receiving(s, t, addr, data, k) && Offset(k) < |data|
    ensures Succeeds(NextData(s, addr, data, k))
    ensures Receiving(NextData(s, addr, data, k).state, t.(blocks := t.blocks + [Chunk(data, k)]), addr, data, k + 1)
  {
    var chunk := Chunk(data, k);
    ChunkIsSlice(data, k);
    var fate := Landing(s.slot, k, chunk);
    CleanBlockSucceeds(s, addr, k, chunk, fate);
    CleanBlockIsObserved(s, t, addr, k, chunk, fate);
    DataKeepsLoading(s, t, addr, data, k, fate, true);
    DataKeepsDeclaration(s, DataFrame(addr, k, chunk), fate);
    IdentityStays(s, DataFrame(addr, k, chunk), fate, addr);
  }

  lemma IdentityStays(s: State, f: Frame, fate: FlashFate, addr: byte)
    requires SlotSized(s, fate) && Addressed(s, EndFrame(addr)) && TargetOf(f) == addr
    ensures Addressed(Dispatch(s, f, fate).state, EndFrame(addr))
  {
    DispatchObeys(s, f, fate);
    var u, body := Identified(s, f), BodyOf(f);
    if f.cmd == CMD_DATA && u.downloading && |body| >= 4 {
      AttemptKeepsIdentity(u, LE16(body[..2]), Crc16(body[4..]) == LE16(body[2..4]), body[4..], fate);
    }
  }

  /** All blocks from k on, sent once each and received once each. */
  ghost function Push(s: State, t: Track, addr: byte, data: seq<byte>, k: nat): (u: State)
    requires Sendable(data) && Receiving(s, t, addr, data, k)
    ensures exists v, n: nat :: Receiving(u, v, addr, data, n) && Offset(n) >= |data|
    decreases |data| - k
  {
    if Offset(k) >= |data| then s
    else
      CleanBlock(s, t, addr, data, k);
      Push(NextData(s, addr, data, k).state, t.(blocks := t.blocks + [Chunk(data, k)]), addr, data, k + 1)
  }

  lemma CleanEnd(s: State, t: Track, addr: byte, data: seq<byte>, n: nat, fate: FlashFate)
    requires Sendable(data) && Receiving(s, t, addr, data, n) && Offset(n) >= |data| && |fate.noise| == APP_SIZE
    ensures var o := Dispatch(s, EndFrame(addr), fate);
            Succeeds(o) && Commit(|data|, Sum32(data)) in o.actions && s.slot[..|data|] == data
  {
    ChunksAssemble(data, t.blocks);
    CompleteDownload(s, t, data, true);
    DispatchObeys(s, EndFrame(addr), fate);
    var o := Obey(Identified(s, EndFrame(addr)), CMD_END, BodyOf(EndFrame(addr)), fate);
    assert Commit(|data|, Sum32(data)) in o.actions;
  }

  lemma CleanOpening(s: State, addr: byte, data: seq<byte>, fate: FlashFate)
    requires Sendable(data) && Addressed(s, EndFrame(addr)) && SlotSized(s, fate) && fate.eraseOk
    ensures var a := Dispatch(s, SelectFrame(addr), fate);
            Succeeds(a) && SlotSized(a.state, fate)
    ensures var a := Dispatch(s, SelectFrame(addr), fate);
            var b := Dispatch(a.state, StartFrame(addr, |data|, Sum32(data)), fate);
            Succeeds(b) && Receiving(b.state, Track(true, 0, 0, []), addr, data, 0)
  {
    var f, g := SelectFrame(addr), StartFrame(addr, |data|, Sum32(data));
    DispatchObeys(s, f, fate);
    var u := Dispatch(s, f, fate).state;
    StartBodyDecodes(addr, |data|, Sum32(data));
    StartObeyed(u, g, fate);
    BeginLoads(Identified(u, g), NEW_TRACK, data, Sum32(data), fate, true);
  }

  /** Undisturbed, any image the host accepts is downloaded and committed, whatever state the board was in. */
  lemma CleanTransferCommits(s: State, addr: byte, data: seq<byte>, fate: FlashFate)
    requires Sendable(data) && Addressed(s, EndFrame(addr)) && SlotSized(s, fate) && fate.eraseOk
    ensures var a := Dispatch(s, SelectFrame(addr), fate).state;
            |a.slot| == APP_SIZE &&
            var b := Dispatch(a, StartFrame(addr, |data|, Sum32(data)), fate).state;
            Receiving(b, Track(true, 0, 0, []), addr, data, 0) &&
            var u := Push(b, Track(true, 0, 0, []), addr, data, 0);
            |u.slot| == APP_SIZE &&
            var o := Dispatch(u, EndFrame(addr), fate);
            Succeeds(o) && Commit(|data|, Sum32(data)) in o.actions && u.slot[..|data|] == data
  {
    CleanOpening(s, addr, data, fate);
    var a := Dispatch(s, SelectFrame(addr), fate).state;
    var b := Dispatch(a, StartFrame(addr, |data|, Sum32(data)), fate).state;
    var u := Push(b, Track(true, 0, 0, []), addr, data, 0);
    var v, n: nat :| Receiving(u, v, addr, data, n) && Offset(n) >= |data|;
    CleanEnd(u, v, addr, data, n, fate);
  }
}

/**
  The host's own recogniser. It collects what the serial port hands over in a buffer, drops everything
  before a header, waits for as many octets as the length field announces, and drops a frame that fails
  its checks as a whole.
*/
module HostFrames {
  import opened Bytes
  import opened Frames

  datatype Extracted = Extracted(rest: seq<byte>, out: Option<Frame>)

  function FromHeader(buf: seq<byte>): (r: seq<byte>)
    ensures |r| <= |buf| && (r != [] ==> r[0] == HEADER)
  {
    if buf == [] || buf[0] == HEADER then buf else FromHeader(buf[1..])
  }

  /** Whether a whole frame has been collected. */
  predicate Whole(buf: seq<byte>) {
    |buf| >= 3 && |buf| >= buf[2] as int + 5
  }

  /** The first good frame in the buffer and what follows it, or what to keep until more arrives. */
  function Extract(buf: seq<byte>): (r: Extracted)
    ensures |r.rest| <= |buf|
    decreases |buf|
  {
    var b := FromHeader(buf);
    if !Whole(b) then Extracted(b, None)
    else
      var total := b[2] as int + 5;
      var out := Decode(b[..total]);
      if out.Some? then Extracted(b[total..], out) else Extract(b[total..])
  }

  // ---------- everything a buffer holds ----------

  datatype Drained = Drained(frames: seq<Frame>, rest: seq<byte>)

  lemma {:induction false} ExtractShrinks(buf: seq<byte>)
    ensures Extract(buf).out.Some? ==> |Extract(buf).rest| < |buf|
    decreases |buf|
  {
    var b := FromHeader(buf);
    if Whole(b) {
      ExtractShrinks(b[b[2] as int + 5..]);
    }
  }

  /** All good frames of a buffer, first to last. */
  function Drain(buf: seq<byte>): Drained
    decreases |buf|
  {
    ExtractShrinks(buf);
    var e := Extract(buf);
    if e.out.None? then Drained([], e.rest)
    else
      var d := Drain(e.rest);
      Drained([e.out.value] + d.frames, d.rest)
  }

  lemma {:induction false} FromHeaderContinues(a: seq<byte>, b: seq<byte>)
    ensures FromHeader(a + b) == if FromHeader(a) == [] then FromHeader(b) else FromHeader(a) + b
  {
    if a == [] {
      assert a + b == b;
    } else if a[0] != HEADER {
      assert (a + b)[1..] == a[1..] + b;
      FromHeaderContinues(a[1..], b);
    }
  }

  lemma ExtractFromHeader(a: seq<byte>, b: seq<byte>)
    requires FromHeader(a) == FromHeader(b)
    ensures Extract(a) == Extract(b)
  {}

  lemma PartOnly(b: seq<byte>)
    requires FromHeader(b) == b && !Whole(b)
    ensures Extract(b) == Extracted(b, None)
  {}

  lemma WholeFrameIsTaken(frame: seq<byte>, more: seq<byte>)
    requires |frame| >= 5 && frame[0] == HEADER && |frame| == frame[2] as int + 5
    ensures Extract(frame + more) == if Decode(frame).Some? then Extracted(more, Decode(frame)) else Extract(more)
  {
    var b := frame + more;
    assert b[..|frame|] == frame && b[|frame|..] == more;
  }

  /** Later octets do not change what is extracted now, and what was dropped would be dropped anyway. */
  ghost predicate Continues(b: seq<byte>, e: Extracted, later: Extracted) {
    later == if e.out.Some? then Extracted(e.rest + b, e.out) else Extract(e.rest + b)
  }

  lemma {:induction false} ExtractContinues(a: seq<byte>, b: seq<byte>)
    ensures Continues(b, Extract(a), Extract(a + b))
    decreases |a|, 1
  {
    var h := FromHeader(a);
    FromHeaderContinues(a, b);
    FromHeaderTwice(a);
    ExtractFromHeader(a, h);
    ExtractFromHeader(a + b, if h == [] then b else h + b);
    if h == [] {
      PartOnly(h);
      assert [] + b == b;
    } else {
      HeaderContinues(h, b);
    }
  }

  lemma {:induction false} HeaderContinues(h: seq<byte>, b: seq<byte>)
    requires h != [] && FromHeader(h) == h
    ensures Continues(b, Extract(h), Extract(h + b))
    decreases |h|, 0
  {
    if Whole(h) {
      var total := h[2] as int + 5;
      assert h == h[..total] + h[total..];
      if Decode(h[..total]).None? {
        ExtractContinues(h[total..], b);
      }
      FrameContinues(h[..total], h[total..], b);
    } else {
      PartOnly(h);
    }
  }

  lemma {:induction false} FromHeaderTwice(a: seq<byte>)
    ensures FromHeader(FromHeader(a)) == FromHeader(a)
  {
    if a != [] && a[0] != HEADER {
      FromHeaderTwice(a[1..]);
    }
  }

  lemma FrameContinues(frame: seq<byte>, more: seq<byte>, b: seq<byte>)
    requires |frame| >= 5 && frame[0] == HEADER && |frame| == frame[2] as int + 5
    requires Decode(frame).None? ==> Continues(b, Extract(more), Extract(more + b))
    ensures Continues(b, Extract(frame + more), Extract(frame + more + b))
  {
    assert frame + more + b == frame + (more + b);
    WholeFrameIsTaken(frame, more);
    WholeFrameIsTaken(frame, more + b);
    TakenContinues(Decode(frame), more, b, Extract(frame + more), Extract(frame + more + b));
  }

  lemma TakenContinues(out: Option<Frame>, more: seq<byte>, b: seq<byte>, e: Extracted, later: Extracted)
    requires e == if out.Some? then Extracted(more, out) else Extract(more)
    requires later == if out.Some? then Extracted(more + b, out) else Extract(more + b)
    requires out.None? ==> Continues(b, Extract(more), Extract(more + b))
    ensures Continues(b, e, later)
  {}

  lemma DrainTakes(a: seq<byte>, e: Extracted, d: Drained)
    requires e == Extract(a) && (e.out.Some? ==> d == Drain(e.rest))
    ensures Drain(a) == if e.out.None? then Drained([], e.rest) else Drained([e.out.value] + d.frames, d.rest)
  {}

  lemma NothingLeft(a: seq<byte>)
    requires Extract(a).out.None?
    ensures Extract(Extract(a).rest) == Extract(a)
  {
    ExtractContinues(a, []);
    assert a + [] == a && Extract(a).rest + [] == Extract(a).rest;
  }

  /** One buffer of octets, then more: a stream may be drained in pieces, and no frame is lost, added or reordered. */
  ghost predicate DrainsOn(d: Drained, later: Drained, all: Drained) {
    all == Drained(d.frames + later.frames, later.rest)
  }

  lemma {:induction false} DrainContinues(a: seq<byte>, b: seq<byte>)
    ensures DrainsOn(Drain(a), Drain(Drain(a).rest + b), Drain(a + b))
    decreases |a|
  {
    ExtractContinues(a, b);
    var e := Extract(a);
    if e.out.Some? {
      DrainContinues(e.rest, b);
      DrainTakes(a, e, Drain(e.rest));
      DrainTakes(a + b, Extract(a + b), Drain(e.rest + b));
      DrainsOnBehind(e.out.value, Drain(e.rest), Drain(Drain(a).rest + b), Drain(e.rest + b));
    } else {
      DrainTakes(a, e, Drained([], []));
      DrainAgrees(a + b, e.rest + b);
    }
  }

  /** What is taken from a buffer first, and the rest with what came later. */
  lemma DrainAfter(a: seq<byte>, b: seq<byte>, e: Extracted)
    requires e == Extract(a)
    ensures Drain(a + b).frames == (if e.out.Some? then [e.out.value] else []) + Drain(e.rest + b).frames
  {
    ExtractContinues(a, b);
    if e.out.Some? {
      DrainTakes(a + b, Extract(a + b), Drain(e.rest + b));
    } else {
      DrainAgrees(a + b, e.rest + b);
      assert [] + Drain(e.rest + b).frames == Drain(e.rest + b).frames;
    }
  }

  lemma DrainsOnBehind(f: Frame, d: Drained, later: Drained, all: Drained)
    requires DrainsOn(d, later, all)
    ensures DrainsOn(Drained([f] + d.frames, d.rest), later, Drained([f] + all.frames, all.rest))
  {}

  lemma DrainAgrees(a: seq<byte>, b: seq<byte>)
    requires Extract(a) == Extract(b)
    ensures Drain(a) == Drain(b)
  {}

  /** What has been returned so far and what the buffer still holds are together the frames of all octets received. */
  ghost predicate Listened(received: seq<byte>, heard: seq<Frame>, rx: seq<byte>) {
    forall all: Drained, held: Drained ::
      Holds(received, all) && Holds(rx, held) ==> DrainsOn(Drained(heard, []), held, all)
  }

  ghost predicate Holds(buf: seq<byte>, d: Drained) {
    d == Drain(buf)
  }

  lemma ListenedMore(received: seq<byte>, heard: seq<Frame>, rx: seq<byte>, more: seq<byte>)
    requires Listened(received, heard, rx)
    ensures Listened(received + more, heard, rx + more)
  {
    DrainContinues(received, more);
    DrainContinues(rx, more);
    assert Holds(received, Drain(received)) && Holds(rx, Drain(rx));
    JoinedOn(Drain(received), heard, Drain(rx), Drain(Drain(rx).rest + more), Drain(received + more), Drain(rx + more));
  }

  lemma JoinedOn(all: Drained, heard: seq<Frame>, held: Drained, later: Drained, all': Drained, held': Drained)
    requires DrainsOn(Drained(heard, []), held, all) && DrainsOn(all, later, all') && DrainsOn(held, later, held')
    ensures DrainsOn(Drained(heard, []), held', all')
  {}

  /** Nothing good is left in the buffer. */
  ghost predicate Spoilt(rx: seq<byte>) {
    exists d: Drained :: Holds(rx, d) && d.frames == []
  }

  lemma ListenedTo(received: seq<byte>, heard: seq<Frame>, rx: seq<byte>, e: Extracted)
    requires Listened(received, heard, rx) && e == Extract(rx)
    ensures Listened(received, heard + if e.out.Some? then [e.out.value] else [], e.rest)
    ensures e.out.None? ==> Spoilt(e.rest)
  {
    assert Holds(received, Drain(received)) && Holds(rx, Drain(rx));
    DrainTakes(rx, e, Drain(e.rest));
    if e.out.None? {
      NothingLeft(rx);
      DrainTakes(e.rest, e, Drained([], []));
      assert Holds(e.rest, Drain(e.rest));
    }
    JoinedTo(Drain(received), heard, Drain(rx), e, Drain(e.rest));
  }

  lemma JoinedTo(all: Drained, heard: seq<Frame>, held: Drained, e: Extracted, rest: Drained)
    requires DrainsOn(Drained(heard, []), held, all)
    requires if e.out.Some? then held == Drained([e.out.value] + rest.frames, rest.rest)
             else held == rest == Drained([], e.rest)
    ensures DrainsOn(Drained(heard + if e.out.Some? then [e.out.value] else [], []), rest, all)
  {}

  lemma ListenedFromTheStart()
    ensures Listened([], [], [])
  {
    assert [] + Drain([]).frames == Drain([]).frames;
  }

  // ---------- what is extracted was printed ----------

  lemma EndsWithTwice(s: seq<byte>, t: seq<byte>, u: seq<byte>)
    requires EndsWith(s, t) && EndsWith(t, u)
    ensures EndsWith(s, u)
  {}

  lemma {:induction false} FromHeaderIsSuffix(buf: seq<byte>)
    ensures EndsWith(buf, FromHeader(buf))
  {
    if buf != [] && buf[0] != HEADER {
      FromHeaderIsSuffix(buf[1..]);
      EndsWithTwice(buf, buf[1..], FromHeader(buf[1..]));
    }
  }

  lemma TailEndsWith(b: seq<byte>, total: nat)
    requires total <= |b|
    ensures EndsWith(b, b[total..]) && EndsWith(b, b[..total] + b[total..])
  {
    assert b == b[..total] + b[total..];
  }

  lemma GoodFront(b: seq<byte>, total: nat)
    requires Whole(b) && b[0] == HEADER && total == b[2] as int + 5 && Decode(b[..total]).Some?
    ensures var f := Decode(b[..total]).value; |f.payload| < 256 && EndsWith(b, BuildFrame(f) + b[total..])
  {
    TailEndsWith(b, total);
    DecodedIsPrinted(b[..total]);
  }

  /** An extracted frame is in the buffer in its printed form, with the rest behind it. */
  ghost predicate WasPrinted(buf: seq<byte>, r: Extracted) {
    r.out.Some? ==> |r.out.value.payload| < 256 && EndsWith(buf, BuildFrame(r.out.value) + r.rest)
  }

  lemma WasPrintedBefore(buf: seq<byte>, b: seq<byte>, r: Extracted)
    requires EndsWith(buf, b) && WasPrinted(b, r)
    ensures WasPrinted(buf, r)
  {
    if r.out.Some? {
      EndsWithTwice(buf, b, BuildFrame(r.out.value) + r.rest);
    }
  }

  /** What one round of the recogniser makes of a buffer that begins with a header. */
  lemma GoodOrSkipped(b: seq<byte>, total: nat, r: Extracted)
    requires Whole(b) && b[0] == HEADER && total == b[2] as int + 5
    requires if Decode(b[..total]).Some? then r == Extracted(b[total..], Decode(b[..total]))
             else WasPrinted(b[total..], r)
    ensures WasPrinted(b, r)
  {
    if Decode(b[..total]).Some? {
      GoodFront(b, total);
    } else {
      TailEndsWith(b, total);
      WasPrintedBefore(b, b[total..], r);
    }
  }

  /** Whatever the octets, an extracted frame is there in its printed form, and the rest of the buffer follows it. */
  lemma {:induction false} ExtractedWasPrinted(buf: seq<byte>)
    ensures WasPrinted(buf, Extract(buf))
    decreases |buf|
  {
    var b := FromHeader(buf);
    FromHeaderIsSuffix(buf);
    if Whole(b) {
      var total := b[2] as int + 5;
      if Decode(b[..total]).None? {
        ExtractedWasPrinted(b[total..]);
      }
      GoodOrSkipped(b, total, Extract(buf));
      WasPrintedBefore(buf, b, Extract(buf));
    }
  }

  // ---------- a stream of printed frames ----------

  /** An octet that begins nothing, a frame that fails its checks, or a good frame. */
  datatype Piece = Noise(octet: byte) | Damaged(buf: seq<byte>) | Good(frame: Frame)

  predicate Proper(p: Piece) {
    match p
    case Noise(octet) => octet != HEADER
    case Damaged(buf) => |buf| >= 5 && buf[0] == HEADER && |buf| == buf[2] as int + 5 && Decode(buf) == None
    case Good(frame) => |frame.payload| <= PAYLOAD_MAX
  }

  predicate AllProper(pieces: seq<Piece>) {
    forall i :: 0 <= i < |pieces| ==> Proper(pieces[i])
  }

  function OctetsOf(p: Piece): (s: seq<byte>)
    requires Proper(p)
    ensures s != []
  {
    match p
    case Noise(octet) => [octet]
    case Damaged(buf) => buf
    case Good(frame) => BuildFrame(frame)
  }

  function Flat(strings: seq<seq<byte>>): seq<byte> {
    if strings == [] then [] else strings[0] + Flat(strings[1..])
  }

  function Strings(pieces: seq<Piece>): (r: seq<seq<byte>>)
    requires AllProper(pieces)
    ensures |r| == |pieces|
  {
    seq(|pieces|, i requires 0 <= i < |pieces| => OctetsOf(pieces[i]))
  }

  function Stream(pieces: seq<Piece>): seq<byte>
    requires AllProper(pieces)
  {
    Flat(Strings(pieces))
  }

  function GoodFrames(pieces: seq<Piece>): seq<Frame> {
    if pieces == [] then [] else FramesIn(pieces[0]) + GoodFrames(pieces[1..])
  }

  /** How many octets it takes until the first good frame is whole. */
  function UpToFirst(pieces: seq<Piece>): nat
    requires AllProper(pieces)
  {
    if pieces == [] then 0
    else |OctetsOf(pieces[0])| + if pieces[0].Good? then 0 else UpToFirst(pieces[1..])
  }

  lemma Regroup<T>(a: seq<T>, b: seq<T>, c: seq<T>)
    ensures a + b + c == a + (b + c)
  {}

  function FramesIn(p: Piece): seq<Frame> {
    if p.Good? then [p.frame] else []
  }

  lemma StreamFirst(pieces: seq<Piece>)
    requires AllProper(pieces) && pieces != []
    ensures Stream(pieces) == OctetsOf(pieces[0]) + Stream(pieces[1..])
  {
    assert Strings(pieces)[1..] == Strings(pieces[1..]);
  }

  /** A reply damaged in one octet other than header and length is such a damaged frame. */
  lemma DamagedReplyIsProper(f: Frame, bad: seq<byte>, k: nat)
    requires |f.payload| <= PAYLOAD_MAX
    requires |bad| == |BuildFrame(f)| && k < |bad| && k != 0 && k != 2
    requires bad[k] != BuildFrame(f)[k]
    requires forall i :: 0 <= i < |bad| && i != k ==> bad[i] == BuildFrame(f)[i]
    ensures Proper(Damaged(bad))
  {
    PrintedDecodes(f);
    DamagedBufferDoesNotDecode(BuildFrame(f), bad, k);
  }

  lemma Cut(rx: seq<byte>, incoming: seq<byte>, u: seq<byte>, v: seq<byte>)
    requires rx + incoming == u + v
    ensures |rx| <= |u| ==> rx == u[..|rx|] && incoming == u[|rx|..] + v
    ensures |rx| >= |u| ==> rx == u + rx[|u|..] && rx[|u|..] + incoming == v
  {
    var all := rx + incoming;
    assert rx == all[..|rx|] && incoming == all[|rx|..];
    assert u == all[..|u|] && v == all[|u|..];
  }

  /** Part of a frame is kept until more arrives. */
  lemma PartIsKept(frame: seq<byte>, part: seq<byte>)
    requires |frame| >= 5 && frame[0] == HEADER && |frame| == frame[2] as int + 5
    requires 0 < |part| < |frame| && part == frame[..|part|]
    ensures Extract(part) == Extracted(part, None)
  {}

  lemma NoiseIsDropped(octet: byte, more: seq<byte>)
    requires octet != HEADER
    ensures Extract([octet] + more) == Extract(more)
  {
    assert ([octet] + more)[1..] == more;
  }

  /** What the first piece is to the recogniser once it has been collected whole, with more behind it. */
  lemma FirstPieceIsTaken(p: Piece, more: seq<byte>)
    requires Proper(p)
    ensures Extract(OctetsOf(p) + more) == if p.Good? then Extracted(more, Some(p.frame)) else Extract(more)
  {
    match p
    case Noise(octet) => NoiseIsDropped(octet, more);
    case Damaged(buf) => WholeFrameIsTaken(buf, more);
    case Good(frame) =>
      PrintedDecodes(frame);
      WholeFrameIsTaken(BuildFrame(frame), more);
  }

  /**
    However the stream is cut into what has been collected and what is still coming, the recogniser takes its
    first good frame as soon as it is whole and nothing before that, and the stream goes on behind it.
  */
  lemma {:induction false} ExtractFromStream(rx: seq<byte>, incoming: seq<byte>, pieces: seq<Piece>)
      returns (more: seq<Piece>)
    requires AllProper(pieces) && rx + incoming == Stream(pieces)
    ensures AllProper(more) && Extract(rx).rest + incoming == Stream(more)
    ensures var out := Extract(rx).out;
            && GoodFrames(pieces) == (if out.Some? then [out.value] else []) + GoodFrames(more)
            && (out.Some? <==> GoodFrames(pieces) != [] && |rx| >= UpToFirst(pieces))
    decreases |pieces|
  {
    if rx == [] || pieces == [] {
      more := pieces;
      return;
    }
    var first, octets := pieces[0], OctetsOf(pieces[0]);
    StreamFirst(pieces);
    Cut(rx, incoming, octets, Stream(pieces[1..]));
    if |rx| < |octets| {
      PartIsKept(octets, rx);
      more := pieces;
    } else {
      var rest := rx[|octets|..];
      FirstPieceIsTaken(first, rest);
      if first.Good? {
        more := pieces[1..];
      } else {
        more := ExtractFromStream(rest, incoming, pieces[1..]);
      }
    }
  }

  /** From a whole stream the recogniser takes every good frame, in order, whatever is between them. */
  lemma {:induction false} StreamDrains(pieces: seq<Piece>)
    requires AllProper(pieces)
    ensures Drain(Stream(pieces)) == Drained(GoodFrames(pieces), [])
  {
    if pieces == [] {
      PartOnly([]);
      DrainTakes([], Extracted([], None), Drained([], []));
    } else {
      var first, more := pieces[0], Stream(pieces[1..]);
      StreamDrains(pieces[1..]);
      StreamFirst(pieces);
      FirstPieceIsTaken(first, more);
      if first.Good? {
        DrainTakes(Stream(pieces), Extracted(more, Some(first.frame)), Drain(more));
      } else {
        DrainAgrees(Stream(pieces), more);
        assert [] + GoodFrames(pieces[1..]) == GoodFrames(pieces[1..]);
      }
    }
  }
}

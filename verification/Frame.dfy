/**
  The frame envelope: header 'z', command, payload length, payload, CRC-8, newline.

  The host prints frames; every board recognises them in an arbitrary octet stream. The
  recogniser is specified on the octets collected since the last header, and the state-machine
  program over a 258-octet buffer is proved to implement that specification.
*/
module Frames {
  import opened Bytes
  import opened Crc

  const HEADER: byte := 0x7A
  const FOOT: byte := 0x0A
  const DATA_MAX: nat := 248
  const PAYLOAD_MAX: nat := 253
  const BUFFER_SIZE: nat := 258

  datatype Frame = Frame(cmd: byte, payload: seq<byte>)

  // ---------- printing ----------

  function Body(f: Frame): seq<byte>
    requires |f.payload| < 256
  {
    [HEADER, f.cmd, |f.payload|] + f.payload
  }

  /** The host's frame builder. */
  function BuildFrame(f: Frame): seq<byte>
    requires |f.payload| < 256
  {
    Body(f) + [Crc8(Body(f)), FOOT]
  }

  // ---------- recognising ----------

  /** What a board makes of a complete buffer: the command and payload, or nothing. */
  function Decode(buf: seq<byte>): Option<Frame>
    requires |buf| >= 5
  {
    var n := |buf|;
    if buf[n - 1] == FOOT && Crc8(buf[..n - 2]) == buf[n - 2] then Some(Frame(buf[1], buf[3..n - 2])) else None
  }

  datatype Fed = Fed(acc: seq<byte>, out: Option<Frame>)

  /** acc is what a parser may hold between two octets: nothing, or an unfinished frame. */
  predicate Partial(acc: seq<byte>) {
    acc != [] ==>
      && acc[0] == HEADER
      && (|acc| > 2 ==> acc[2] <= PAYLOAD_MAX && |acc| < acc[2] as int + 5)
  }

  /** One octet: skip until a header, drop an over-long length, otherwise collect until complete. */
  function Feed(acc: seq<byte>, b: byte): (r: Fed)
    requires Partial(acc)
    ensures Partial(r.acc)
    ensures r.acc == [] || r.acc == acc + [b]
    ensures r.out.Some? ==> r.acc == []
  {
    if |acc| == 0 then Fed(if b == HEADER then [b] else [], None)
    else if |acc| == 1 then Fed(acc + [b], None)
    else if |acc| == 2 then Fed(if b <= PAYLOAD_MAX then acc + [b] else [], None)
    else if |acc| + 1 < acc[2] as int + 5 then Fed(acc + [b], None)
    else Fed([], Decode(acc + [b]))
  }

  datatype Run = Run(acc: seq<byte>, frames: seq<Frame>)

  function FeedAll(acc: seq<byte>, s: seq<byte>): (r: Run)
    requires Partial(acc)
    ensures Partial(r.acc)
  {
    if s == [] then Run(acc, [])
    else
      var r := FeedAll(acc, s[..|s| - 1]);
      var f := Feed(r.acc, s[|s| - 1]);
      Run(f.acc, if f.out.Some? then r.frames + [f.out.value] else r.frames)
  }

  lemma FeedNext(acc: seq<byte>, s: seq<byte>, p: seq<byte>, b: byte)
    requires Partial(acc)
    requires s == p + [b]
    ensures var r := FeedAll(acc, p);
            var f := Feed(r.acc, b);
            FeedAll(acc, s) == Run(f.acc, if f.out.Some? then r.frames + [f.out.value] else r.frames)
  {
    assert s[..|s| - 1] == p;
  }

  function Join(r: Run, q: Run): Run {
    Run(q.acc, r.frames + q.frames)
  }

  lemma {:induction false} FeedAllAppend(acc: seq<byte>, s: seq<byte>, t: seq<byte>)
    requires Partial(acc)
    ensures FeedAll(acc, s + t) == Join(FeedAll(acc, s), FeedAll(FeedAll(acc, s).acc, t))
  {
    if t == [] {
      assert s + t == s;
    } else {
      var m, b := t[..|t| - 1], t[|t| - 1];
      SplitLast(s, t);
      FeedAllAppend(acc, s, m);
      FeedNext(acc, s + t, s + m, b);
      FeedNext(FeedAll(acc, s).acc, t, m, b);
    }
  }

  // ---------- the recogniser accepts exactly what the host prints ----------

  /** A buffer that passes the footer and CRC tests is the printed form of what it decodes to. */
  lemma DecodedIsPrinted(buf: seq<byte>)
    requires |buf| >= 5 && buf[0] == HEADER && |buf| == buf[2] as int + 5
    requires Decode(buf).Some?
    ensures BuildFrame(Decode(buf).value) == buf
  {
    var n := |buf|;
    assert Body(Decode(buf).value) == buf[..n - 2];
  }

  lemma PrintedDecodes(f: Frame)
    requires |f.payload| < 256
    ensures Decode(BuildFrame(f)) == Some(f)
  {
    var buf := BuildFrame(f);
    assert buf[..|buf| - 2] == Body(f);
    assert buf[3..|buf| - 2] == f.payload;
  }

  predicate Framed(buf: seq<byte>) {
    |buf| >= 5 && buf[0] == HEADER && buf[2] <= PAYLOAD_MAX && |buf| == buf[2] as int + 5
  }

  lemma NextIsCollected(buf: seq<byte>, k: nat)
    requires Framed(buf) && k + 1 < |buf|
    ensures Partial(buf[..k]) && Feed(buf[..k], buf[k]) == Fed(buf[..k + 1], None)
  {
    SplitAt(buf, k);
  }

  /** Before its last octet a printed frame is only collected. */
  lemma {:induction false} PrefixIsCollected(buf: seq<byte>, k: nat)
    requires Framed(buf) && k < |buf|
    ensures FeedAll([], buf[..k]) == Run(buf[..k], [])
  {
    if k > 0 {
      var p, q := buf[..k - 1], buf[..k];
      PrefixIsCollected(buf, k - 1);
      NextIsCollected(buf, k - 1);
      SplitAt(buf, k - 1);
      FeedNext([], q, p, buf[k - 1]);
    }
  }

  lemma CompleteBufferDecodes(buf: seq<byte>)
    requires Framed(buf)
    ensures FeedAll([], buf) == Run([], if Decode(buf).Some? then [Decode(buf).value] else [])
  {
    var n := |buf| - 1;
    PrefixIsCollected(buf, n);
    SplitAt(buf, n);
    FeedNext([], buf, buf[..n], buf[n]);
  }

  /** From the idle state a printed frame is dispatched exactly once, on its last octet. */
  lemma PrintedFrameDispatches(f: Frame)
    requires |f.payload| <= 253
    ensures FeedAll([], BuildFrame(f)) == Run([], [f])
    ensures forall k :: 0 <= k < |BuildFrame(f)| ==> FeedAll([], BuildFrame(f)[..k]) == Run(BuildFrame(f)[..k], [])
  {
    var buf := BuildFrame(f);
    PrintedDecodes(f);
    CompleteBufferDecodes(buf);
    forall k | 0 <= k < |buf| ensures FeedAll([], buf[..k]) == Run(buf[..k], []) {
      PrefixIsCollected(buf, k);
    }
  }

  predicate EndsWith(s: seq<byte>, t: seq<byte>) {
    |t| <= |s| && s[|s| - |t|..] == t
  }

  lemma SuffixGrows(s: seq<byte>, t: seq<byte>, b: byte)
    requires EndsWith(s, t)
    ensures EndsWith(s + [b], t + [b]) && EndsWith(s + [b], [])
  {
    assert (s + [b])[|s| - |t|..] == t + [b];
  }

  lemma {:induction false} CollectedIsSuffix(s: seq<byte>)
    ensures EndsWith(s, FeedAll([], s).acc)
  {
    if s != [] {
      var n := |s| - 1;
      CollectedIsSuffix(s[..n]);
      var acc := FeedAll([], s[..n]).acc;
      SplitAt(s, n);
      FeedNext([], s, s[..n], s[n]);
      SuffixGrows(s[..n], acc, s[n]);
    }
  }

  /** Whatever the stream, at every dispatch the octets just fed are the printed form of the frame. */
  lemma EveryDispatchWasPrinted(s: seq<byte>, b: byte)
    requires Feed(FeedAll([], s).acc, b).out.Some?
    ensures var f := Feed(FeedAll([], s).acc, b).out.value;
            |f.payload| <= 253 && b == 0x0A && EndsWith(s + [b], BuildFrame(f))
  {
    var acc := FeedAll([], s).acc;
    CollectedIsSuffix(s);
    DecodedIsPrinted(acc + [b]);
    SuffixGrows(s, acc, b);
  }

  // ---------- resynchronisation ----------

  /** Every octet either completes a reset or lengthens the collected frame by one. */
  lemma {:induction false} IdleOrLonger(acc: seq<byte>, s: seq<byte>)
    requires Partial(acc)
    requires forall k :: 0 <= k <= |s| ==> FeedAll(acc, s[..k]).acc != []
    ensures |FeedAll(acc, s).acc| == |acc| + |s|
  {
    if s != [] {
      var n := |s| - 1;
      forall k | 0 <= k <= n ensures FeedAll(acc, s[..n][..k]).acc != [] {
        assert s[..n][..k] == s[..k];
      }
      IdleOrLonger(acc, s[..n]);
      assert s[..|s|] == s;
    }
  }

  /** The parser is idle again at most 257 octets after any header, whatever those octets are. */
  lemma BackToIdle(acc: seq<byte>, s: seq<byte>)
    requires Partial(acc)
    requires |acc| + |s| >= 258
    ensures exists k :: 0 <= k <= |s| && FeedAll(acc, s[..k]).acc == []
  {
    if forall k :: 0 <= k <= |s| ==> FeedAll(acc, s[..k]).acc != [] {
      IdleOrLonger(acc, s);
      assert false;
    }
  }

  // ---------- streams of frames ----------

  datatype Segment = Segment(noise: seq<byte>, frame: Frame)

  predicate Clean(segments: seq<Segment>) {
    forall i :: 0 <= i < |segments| ==> 0x7A !in segments[i].noise && |segments[i].frame.payload| <= 253
  }

  function Wire(segments: seq<Segment>): seq<byte>
    requires Clean(segments)
  {
    if segments == [] then []
    else
      var last := segments[|segments| - 1];
      Wire(segments[..|segments| - 1]) + (last.noise + BuildFrame(last.frame))
  }

  function FramesOf(segments: seq<Segment>): seq<Frame> {
    seq(|segments|, i requires 0 <= i < |segments| => segments[i].frame)
  }

  lemma {:induction false} NoiseIsSkipped(s: seq<byte>)
    requires HEADER !in s
    ensures FeedAll([], s) == Run([], [])
  {
    if s != [] {
      NoiseIsSkipped(s[..|s| - 1]);
    }
  }

  lemma SegmentIsRecovered(segment: Segment)
    requires HEADER !in segment.noise && |segment.frame.payload| <= PAYLOAD_MAX
    ensures FeedAll([], segment.noise + BuildFrame(segment.frame)) == Run([], [segment.frame])
  {
    NoiseIsSkipped(segment.noise);
    PrintedFrameDispatches(segment.frame);
    FeedAllAppend([], segment.noise, BuildFrame(segment.frame));
  }

  lemma OneMoreSegment(wire: seq<byte>, frames: seq<Frame>, segment: Segment)
    requires HEADER !in segment.noise && |segment.frame.payload| <= PAYLOAD_MAX
    requires FeedAll([], wire) == Run([], frames)
    ensures FeedAll([], wire + (segment.noise + BuildFrame(segment.frame))) == Run([], frames + [segment.frame])
  {
    SegmentIsRecovered(segment);
    FeedAllAppend([], wire, segment.noise + BuildFrame(segment.frame));
  }

  lemma FramesOfLast(segments: seq<Segment>)
    requires segments != []
    ensures FramesOf(segments) == FramesOf(segments[..|segments| - 1]) + [segments[|segments| - 1].frame]
  {}

  /** Frames separated by header-free noise are dispatched all, once each, in order. */
  lemma {:induction false} StreamIsRecovered(segments: seq<Segment>)
    requires Clean(segments)
    ensures FeedAll([], Wire(segments)) == Run([], FramesOf(segments))
  {
    if segments != [] {
      var n := |segments| - 1;
      StreamIsRecovered(segments[..n]);
      OneMoreSegment(Wire(segments[..n]), FramesOf(segments[..n]), segments[n]);
      FramesOfLast(segments);
    }
  }

  lemma DamagedBufferDoesNotDecode(good: seq<byte>, bad: seq<byte>, k: nat)
    requires |bad| == |good| >= 5 && k < |bad|
    requires Decode(good).Some?
    requires bad[k] != good[k]
    requires forall i :: 0 <= i < |bad| && i != k ==> bad[i] == good[i]
    ensures Decode(bad) == None
  {
    var n := |bad|;
    if k < n - 2 {
      Crc8DetectsOneOctet(good[..n - 2], bad[..n - 2], k);
    } else {
      assert bad[..n - 2] == good[..n - 2];
    }
  }

  /** A frame damaged in one octet, other than its header or length, is dropped and leaves the parser idle. */
  lemma DamagedFrameIsDropped(f: Frame, bad: seq<byte>, k: nat)
    requires |f.payload| <= PAYLOAD_MAX
    requires |bad| == |BuildFrame(f)| && k < |bad| && k != 0 && k != 2
    requires bad[k] != BuildFrame(f)[k]
    requires forall i :: 0 <= i < |bad| && i != k ==> bad[i] == BuildFrame(f)[i]
    ensures FeedAll([], bad) == Run([], [])
  {
    PrintedDecodes(f);
    DamagedBufferDoesNotDecode(BuildFrame(f), bad, k);
    CompleteBufferDecodes(bad);
  }

  // ---------- the program ----------

  datatype RxState = StHdr | StCmd | StLen | StPay | StCrc | StFoot

  class FrameParser {
    const buf: array<byte>
    var cnt: nat
    var total: nat
    var state: RxState

    ghost predicate Valid()
      reads this, buf
    {
      && buf.Length == BUFFER_SIZE
      && cnt <= BUFFER_SIZE
      && (state == StHdr ==> cnt == 0)
      && (state == StCmd ==> cnt == 1)
      && (state == StLen ==> cnt == 2)
      && (state in {StPay, StCrc, StFoot} ==> cnt >= 3 && total == buf[2] as int + 5)
      && (state == StPay ==> cnt < total - 2)
      && (state == StCrc ==> cnt == total - 2)
      && (state == StFoot ==> cnt == total - 1)
      && Partial(buf[..cnt])
    }

    /** The octets collected since the last header. */
    ghost function Collected(): seq<byte>
      requires Valid()
      reads this, buf
    {
      buf[..cnt]
    }

    constructor ()
      ensures Valid() && fresh(buf) && Collected() == []
    {
      buf := new byte[BUFFER_SIZE](_ => 0);
      cnt, total, state := 0, 0, StHdr;
    }

    method Reset()
      requires buf.Length == BUFFER_SIZE
      modifies this
      ensures Valid() && Collected() == []
    {
      cnt, state := 0, StHdr;
    }

    method Store(b: byte)
      requires buf.Length == BUFFER_SIZE && cnt < BUFFER_SIZE
      modifies this`cnt, buf
      ensures cnt == old(cnt) + 1 && buf[..cnt] == old(buf[..cnt]) + [b]
    {
      buf[cnt] := b;
      cnt := cnt + 1;
    }

    method FeedByte(b: byte) returns (out: Option<Frame>)
      requires Valid()
      modifies this, buf
      ensures Valid()
      ensures Collected() == Feed(old(Collected()), b).acc
      ensures out == Feed(old(Collected()), b).out
    {
      out := None;
      ghost var acc := Collected();
      match state
      case StHdr =>
        if b == HEADER {
          Store(b);
          state := StCmd;
        }
      case StCmd =>
        Store(b);
        state := StLen;
      case StLen =>
        if b > PAYLOAD_MAX {
          Reset();
        } else {
          Store(b);
          total := b as int + 5;
          state := if b == 0 then StCrc else StPay;
        }
      case StPay =>
        Store(b);
        if cnt == total - 2 {
          state := StCrc;
        }
      case StCrc =>
        Store(b);
        state := StFoot;
      case StFoot =>
        Store(b);
        ghost var full := buf[..cnt];
        if b == FOOT && cnt == total {
          var seal := Crc8(buf[..total - 2]);
          assert full[..total - 2] == buf[..total - 2];
          if seal == buf[total - 2] {
            out := Some(Frame(buf[1], buf[3..total - 2]));
            assert full[3..total - 2] == buf[3..total - 2];
          }
        }
        Reset();
    }
  }
}

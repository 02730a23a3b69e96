/**
  The application's side of an upgrade: a session that is entered on request, fed whole chunks of
  octets from the line, and left at the first commit or abort.
*/
module AppSessions {
  import opened Bytes
  import Crc
  import opened AppImage
  import opened Frames
  import opened Session
  import opened Boards

  // ---------- octets served one at a time ----------

  datatype Served = Served(acc: seq<byte>, state: State, replies: seq<byte>, actions: seq<Action>)

  function ServeOctet(v: Served, b: byte, fate: FlashFate): (r: Served)
    requires Partial(v.acc) && SlotSized(v.state, fate)
    ensures Partial(r.acc) && SlotSized(r.state, fate)
  {
    var fed := Feed(v.acc, b);
    if fed.out.None? then v.(acc := fed.acc)
    else
      var o := Dispatch(v.state, fed.out.value, fate);
      SlotKeepsSize(v.state, fed.out.value, fate);
      Recorded(v, o).(acc := fed.acc)
  }

  function Recorded(v: Served, o: Outcome): Served {
    Served(v.acc, o.state, v.replies + PrintedReply(o), v.actions + o.actions)
  }

  lemma SlotKeepsSize(s: State, f: Frame, fate: FlashFate)
    requires SlotSized(s, fate)
    ensures |Dispatch(s, f, fate).state.slot| == APP_SIZE
  {
    if Addressed(s, f) {
      DispatchObeys(s, f, fate);
      var u, body := Identified(s, f), BodyOf(f);
      if f.cmd == CMD_DATA && u.downloading && |body| >= 4 {
        BlockKeepsSize(u, LE16(body[..2]), Crc.Crc16(body[4..]) == LE16(body[2..4]), body[4..], fate);
      }
    }
  }

  lemma BlockKeepsSize(s: State, blk: nat, intact: bool, data: seq<byte>, fate: FlashFate)
    requires SlotSized(s, fate)
    ensures |DataAttempt(s, blk, intact, data, fate).state.slot| == APP_SIZE
  {}

  /** One flash fate for each octet or frame. */
  ghost predicate Fates(fates: seq<FlashFate>, n: nat) {
    |fates| == n && forall i :: 0 <= i < n ==> |fates[i].noise| == APP_SIZE
  }

  ghost function Serve(v: Served, data: seq<byte>, fates: seq<FlashFate>): (r: Served)
    requires Partial(v.acc) && |v.state.slot| == APP_SIZE && Fates(fates, |data|)
    ensures Partial(r.acc) && |r.state.slot| == APP_SIZE
  {
    if data == [] then v
    else
      var n := |data| - 1;
      ServeOctet(Serve(v, data[..n], fates[..n]), data[n], fates[n])
  }

  /** The same frames, dispatched one after the other, each with its own flash fate. */
  ghost function DispatchAll(v: Served, frames: seq<Frame>, fates: seq<FlashFate>): (r: Served)
    requires |v.state.slot| == APP_SIZE && Fates(fates, |frames|)
    ensures |r.state.slot| == APP_SIZE && r.acc == v.acc
  {
    if frames == [] then v
    else
      var n := |frames| - 1;
      var u := DispatchAll(v, frames[..n], fates[..n]);
      SlotKeepsSize(u.state, frames[n], fates[n]);
      Recorded(u, Dispatch(u.state, frames[n], fates[n]))
  }

  lemma DispatchNext(v: Served, frames: seq<Frame>, fates: seq<FlashFate>, f: Frame, fate: FlashFate)
    requires |v.state.slot| == APP_SIZE && Fates(fates, |frames|) && |fate.noise| == APP_SIZE
    ensures Fates(fates + [fate], |frames + [f]|)
    ensures var u := DispatchAll(v, frames, fates);
            DispatchAll(v, frames + [f], fates + [fate]) == Recorded(u, Dispatch(u.state, f, fate))
  {
    assert (frames + [f])[..|frames|] == frames && (fates + [fate])[..|frames|] == fates;
  }

  /** The fates of the octets that complete a frame. */
  ghost function FrameFates(acc: seq<byte>, data: seq<byte>, fates: seq<FlashFate>): (r: seq<FlashFate>)
    requires Partial(acc) && Fates(fates, |data|)
    ensures Fates(r, |FeedAll(acc, data).frames|)
  {
    if data == [] then []
    else
      var n := |data| - 1;
      var r := FrameFates(acc, data[..n], fates[..n]);
      if Feed(FeedAll(acc, data[..n]).acc, data[n]).out.Some? then r + [fates[n]] else r
  }

  /** Serving octets is recognising frames and dispatching them, whatever the flash does at each. */
  lemma {:induction false} ServingIsDispatching(v: Served, data: seq<byte>, fates: seq<FlashFate>)
    requires Partial(v.acc) && |v.state.slot| == APP_SIZE && Fates(fates, |data|)
    ensures var r := FeedAll(v.acc, data);
            Serve(v, data, fates) == DispatchAll(v, r.frames, FrameFates(v.acc, data, fates)).(acc := r.acc)
  {
    if data != [] {
      var n := |data| - 1;
      ServingIsDispatching(v, data[..n], fates[..n]);
      var r := FeedAll(v.acc, data[..n]);
      var fed := Feed(r.acc, data[n]);
      if fed.out.Some? {
        DispatchNext(v, r.frames, FrameFates(v.acc, data[..n], fates[..n]), fed.out.value, fates[n]);
      }
    }
  }

  /** A chunk of printed frames with noise between them is obeyed frame by frame, whatever the noise. */
  lemma ChunkIsObeyed(v: Served, segments: seq<Segment>, fates: seq<FlashFate>)
    requires v.acc == [] && |v.state.slot| == APP_SIZE && Clean(segments) && Fates(fates, |Wire(segments)|)
    ensures var each := FrameFates([], Wire(segments), fates);
            Fates(each, |segments|) && Serve(v, Wire(segments), fates) == DispatchAll(v, FramesOf(segments), each)
  {
    ServingIsDispatching(v, Wire(segments), fates);
    StreamIsRecovered(segments);
  }

  // ---------- the session ----------

  predicate Leaves(a: Action) {
    a.Commit? || a.Abort?
  }

  predicate StaysActive(actions: seq<Action>) {
    forall i :: 0 <= i < |actions| ==> !Leaves(actions[i])
  }

  class AppSession {
    const slot: array<byte>
    const devId: byte
    var board: Board
    var active: bool

    ghost predicate Valid()
      reads this, board, board.parser, board.parser.buf
    {
      board.Valid() && board.slot == slot
    }

    ghost function Holding(): Served
      reads this, board, board.parser, board.parser.buf, board.slot
      requires Valid()
    {
      Served(board.parser.Collected(), board.Abs(), [], [])
    }

    constructor (flashB: array<byte>, id: byte)
      requires flashB.Length == APP_SIZE
      ensures Valid() && !active && slot == flashB && devId == id
      ensures fresh(board) && fresh(board.parser) && fresh(board.parser.buf)
    {
      slot, devId, active := flashB, id, false;
      board := new Board(id, flashB);
    }

    /** A fresh session over the slot as it stands, whatever was going on before. */
    method EnterUpgrade()
      requires Valid()
      modifies this`board, this`active
      ensures Valid() && active && Holding() == Served([], Init(devId, slot[..]), [], [])
      ensures fresh(board) && fresh(board.parser) && fresh(board.parser.buf)
    {
      board := new Board(devId, slot);
      active := true;
    }

    method FeedOctet(b: byte, fate: FlashFate) returns (reply: seq<byte>, actions: seq<Action>)
      requires Valid() && |fate.noise| == APP_SIZE
      modifies this`active, board, board.slot, board.parser, board.parser.buf
      ensures Valid() && active == (old(active) && StaysActive(actions))
      ensures ServeOctet(old(Holding()), b, fate) == Holding().(replies := reply, actions := actions)
    {
      reply, actions := board.FeedByte(b, fate);
      if exists k :: 0 <= k < |actions| && Leaves(actions[k]) {
        active := false;
      }
    }

    /**
      A chunk from the line. An inactive session ignores it; an active one serves all of it, even past
      the commit or abort that ends the session.
    */
    method FeedChunk(data: seq<byte>, fates: seq<FlashFate>) returns (replies: seq<byte>, actions: seq<Action>)
      requires Valid() && Fates(fates, |data|)
      modifies this`active, board, board.slot, board.parser, board.parser.buf
      ensures Valid()
      ensures !old(active) ==> !active && Holding() == old(Holding()) && replies == [] && actions == []
      ensures old(active) ==>
                && Serve(old(Holding()), data, fates) == Holding().(replies := replies, actions := actions)
                && (active <==> forall a :: a in actions ==> !a.Commit? && !a.Abort?)
    {
      replies, actions := [], [];
      if !active {
        return;
      }
      ghost var start := Holding();
      for i := 0 to |data|
        invariant Valid()
        invariant Serve(start, data[..i], fates[..i]) == Holding().(replies := replies, actions := actions)
        invariant active <==> StaysActive(actions)
      {
        SplitAt(data, i);
        SplitAt(fates, i);
        ServeOctetAppends(Holding(), replies, actions, data[i], fates[i]);
        var reply, done := FeedOctet(data[i], fates[i]);
        StayingActive(actions, done);
        replies, actions := replies + reply, actions + done;
      }
      assert data[..|data|] == data && fates[..|data|] == fates;
      assert StaysActive(actions) <==> forall a :: a in actions ==> !Leaves(a);
    }

    method AbortSession()
      modifies this`active
      ensures !active
    {
      active := false;
    }
  }

  lemma ServeOctetAppends(v: Served, replies: seq<byte>, actions: seq<Action>, b: byte, fate: FlashFate)
    requires Partial(v.acc) && SlotSized(v.state, fate) && v.replies == [] && v.actions == []
    ensures var r := ServeOctet(v, b, fate);
            ServeOctet(v.(replies := replies, actions := actions), b, fate)
            == r.(replies := replies + r.replies, actions := actions + r.actions)
  {
    var fed := Feed(v.acc, b);
    if fed.out.Some? {
      RecordAppends(v, replies, actions, Dispatch(v.state, fed.out.value, fate));
    } else {
      assert replies + [] == replies && actions + [] == actions;
    }
  }

  lemma RecordAppends(v: Served, replies: seq<byte>, actions: seq<Action>, o: Outcome)
    requires v.replies == [] && v.actions == []
    ensures var r := Recorded(v, o);
            Recorded(v.(replies := replies, actions := actions), o)
            == r.(replies := replies + r.replies, actions := actions + r.actions)
  {
    assert [] + PrintedReply(o) == PrintedReply(o) && [] + o.actions == o.actions;
  }

  lemma StayingActive(before: seq<Action>, done: seq<Action>)
    ensures StaysActive(before + done) <==> StaysActive(before) && StaysActive(done)
  {
    assert StaysActive(before + done) ==> forall i :: 0 <= i < |before| ==> before[i] == (before + done)[i];
    assert StaysActive(before + done) ==> forall i :: 0 <= i < |done| ==> done[i] == (before + done)[|before| + i];
  }
}

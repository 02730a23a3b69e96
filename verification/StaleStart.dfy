/**
  A START that is refused while a download is on. It restarts the counters and leaves the download open,
  with the running checksum as it was: concrete runs of a board to commits that no file matches.
*/
module StaleStart {
  import opened Bytes
  import opened AppImage
  import opened Frames
  import opened Session
  import opened Transfer

  // ---------- one frame at a time ----------

  predicate Chosen(s: State, addr: byte) {
    |s.slot| == APP_SIZE && s.selected && Addressed(s, EndFrame(addr))
  }

  /** A download of n octets has just been declared over an erased slot, with sum left in the accumulator. */
  predicate Declared(s: State, addr: byte, n: nat, sum: nat) {
    && Chosen(s, addr) && s.downloading && s.fwSize == n && s.upgChecksum == sum
    && s.expectedBlk == 0 == s.rxBytes && s.slot == BlankSlot()
  }

  /** One block has been taken at position 0 and nothing else, and it is all that was declared. */
  predicate TookOneBlock(s: State, addr: byte, chunk: seq<byte>, sum: nat) {
    && Chosen(s, addr) && |chunk| <= APP_SIZE && s.slot[..|chunk|] == chunk && s.downloading
    && s.fwSize == s.rxBytes == s.upgOffset == |chunk| && s.upgChecksum == sum
  }

  lemma SelectChooses(s: State, addr: byte, fate: FlashFate)
    requires SlotSized(s, fate) && Addressed(s, EndFrame(addr))
    ensures Chosen(Dispatch(s, SelectFrame(addr), fate).state, addr)
  {
    DispatchObeys(s, SelectFrame(addr), fate);
    IdentityStays(s, SelectFrame(addr), fate, addr);
  }

  /** Accepted, START clears the running checksum. */
  lemma StartDeclares(s: State, addr: byte, n: nat, fate: FlashFate)
    requires SlotSized(s, fate) && Chosen(s, addr) && 16 <= n <= APP_SIZE && fate.eraseOk
    ensures var o := Dispatch(s, StartFrame(addr, n, 0), fate);
            Succeeds(o) && Declared(o.state, addr, n, 0)
  {
    StartBodyDecodes(addr, n, 0);
    StartObeyed(s, StartFrame(addr, n, 0), fate);
    IdentityStays(s, StartFrame(addr, n, 0), fate, addr);
  }

  /** Refused in mid-download, for its size or by the flash, START restarts the counters and keeps the running sum. */
  lemma RefusedStartLeavesStaleSum(s: State, addr: byte, n: nat, fate: FlashFate)
    requires SlotSized(s, fate) && Chosen(s, addr) && s.downloading && n < 0x1_0000_0000
    requires !(16 <= n <= APP_SIZE) || !fate.eraseOk
    ensures var o := Dispatch(s, StartFrame(addr, n, 0), fate);
            && !Succeeds(o) && Chosen(o.state, addr) && o.state.downloading
            && o.state.rxBytes == 0 == o.state.expectedBlk && o.state.fwSize == n
            && o.state.upgChecksum == s.upgChecksum && o.state.upgOffset == s.upgOffset
            && o.state.slot == (if 16 <= n <= APP_SIZE then fate.noise else s.slot)
  {
    StartBodyDecodes(addr, n, 0);
    StartObeyed(s, StartFrame(addr, n, 0), fate);
    IdentityStays(s, StartFrame(addr, n, 0), fate, addr);
  }

  lemma OneBlockAttempt(s: State, addr: byte, chunk: seq<byte>, sum: nat, fate: FlashFate)
    requires Declared(s, addr, |chunk|, sum) && s.myId == addr && Lands(fate, 0, chunk)
    ensures TookOneBlock(DataAttempt(s, 0, true, chunk, fate).state, addr, chunk, Wrap32(sum + Sum(chunk)))
  {
    CleanAttempt(s, 0, chunk, fate);
    AttemptSucceeds(s, 0, true, chunk, fate);
  }

  /** The declared octets arrive in one block and land on erased cells. */
  lemma OneBlockArrives(s: State, addr: byte, chunk: seq<byte>, sum: nat, fate: FlashFate, first: nat)
    requires Declared(s, addr, |chunk|, sum) && s.myId == addr && Lands(fate, 0, chunk) && first == 0
    ensures TookOneBlock(Dispatch(s, DataFrame(addr, first, chunk), fate).state, addr, chunk, Wrap32(sum + Sum(chunk)))
  {
    assert Identified(s, EndFrame(addr)) == s;
    assert Dispatch(s, DataFrame(addr, first, chunk), fate).state == DataAttempt(s, 0, true, chunk, fate).state by {
      IntactDataObeyed(s, addr, first, chunk, fate);
    }
    OneBlockAttempt(s, addr, chunk, sum, fate);
  }

  lemma OneBlockCommits(s: State, addr: byte, chunk: seq<byte>, sum: nat, fate: FlashFate)
    requires TookOneBlock(s, addr, chunk, sum) && SlotSized(s, fate)
    ensures Commit(|chunk|, sum) in Dispatch(s, EndFrame(addr), fate).actions
  {
    DispatchObeys(s, EndFrame(addr), fate);
    var o := Obey(Identified(s, EndFrame(addr)), CMD_END, BodyOf(EndFrame(addr)), fate);
    assert Commit(|chunk|, sum) in o.actions;
  }

  lemma IdentityIsKept(s: State, f: Frame, fate: FlashFate)
    requires SlotSized(s, fate) && s.myId != 0
    ensures Dispatch(s, f, fate).state.myId == s.myId
  {
    RepliesAreIdentified(s, f, fate);
  }

  // ---------- the runs ----------

  predicate OneBlockImage(chunk: seq<byte>) {
    16 <= |chunk| <= DATA_MAX
  }

  function Calm(): FlashFate {
    FlashFate(true, true, BlankSlot())
  }

  /** The erase leaves erased cells and yet reports failure. */
  function Failing(): FlashFate {
    FlashFate(false, true, BlankSlot())
  }

  function DataInput(addr: byte, chunk: seq<byte>): Input
    requires 1 <= |chunk| <= DATA_MAX
  {
    Input(DataFrame(addr, 0, chunk), Landing(BlankSlot(), 0, chunk))
  }

  function StartInput(addr: byte, n: nat, fate: FlashFate): Input
    requires n <= APP_SIZE
  {
    Input(StartFrame(addr, n, 0), fate)
  }

  lemma NextState(addr: byte, slot: seq<byte>, inputs: seq<Input>, i: Input)
    requires |slot| == APP_SIZE && Feasible(inputs) && addr != 0
    requires |i.frame.payload| <= PAYLOAD_MAX && |i.fate.noise| == APP_SIZE
    requires After(addr, slot, inputs).state.myId == addr
    ensures Feasible(inputs + [i])
    ensures var s := After(addr, slot, inputs).state;
            && SlotSized(s, i.fate)
            && After(addr, slot, inputs + [i]).state == Dispatch(s, i.frame, i.fate).state
            && After(addr, slot, inputs + [i]).state.myId == addr
  {
    AfterNext(addr, slot, inputs, i);
    IdentityIsKept(After(addr, slot, inputs).state, i.frame, i.fate);
  }

  /** The frames of a run, and how the flash behaved at each. */
  function Commands(inputs: seq<Input>): seq<byte> {
    seq(|inputs|, i requires 0 <= i < |inputs| => inputs[i].frame.cmd)
  }

  lemma CommandsNext(inputs: seq<Input>, i: Input)
    ensures Commands(inputs + [i]) == Commands(inputs) + [i.frame.cmd]
  {}

  ghost predicate Reached(addr: byte, slot: seq<byte>, inputs: seq<Input>, s: State) {
    && |slot| == APP_SIZE && Feasible(inputs) && addr != 0
    && After(addr, slot, inputs).state == s && s.myId == addr
  }

  lemma Reach(addr: byte, slot: seq<byte>, inputs: seq<Input>, s: State, i: Input)
    requires Reached(addr, slot, inputs, s) && |i.frame.payload| <= PAYLOAD_MAX && SlotSized(s, i.fate)
    ensures Reached(addr, slot, inputs + [i], Dispatch(s, i.frame, i.fate).state)
    ensures Commands(inputs + [i]) == Commands(inputs) + [i.frame.cmd]
  {
    NextState(addr, slot, inputs, i);
    CommandsNext(inputs, i);
  }

  /** SELECT and a START for n octets, from any slot. */
  lemma Opens(addr: byte, slot: seq<byte>, n: nat) returns (inputs: seq<Input>, s: State)
    requires addr != 0 && |slot| == APP_SIZE && 16 <= n <= APP_SIZE
    ensures Reached(addr, slot, inputs, s) && Declared(s, addr, n, 0)
    ensures Commands(inputs) == [CMD_SELECT, CMD_START]
  {
    var i, j := Input(SelectFrame(addr), Calm()), StartInput(addr, n, Calm());
    var s0 := Init(addr, slot);
    assert Reached(addr, slot, [], s0);
    Reach(addr, slot, [], s0, i);
    SelectChooses(s0, addr, Calm());
    var s1 := Dispatch(s0, i.frame, i.fate).state;
    Reach(addr, slot, [] + [i], s1, j);
    StartDeclares(s1, addr, n, Calm());
    inputs, s := [] + [i] + [j], Dispatch(s1, j.frame, j.fate).state;
  }

  /** The declared block, onto erased cells. */
  lemma Arrives(addr: byte, slot: seq<byte>, inputs: seq<Input>, s: State, chunk: seq<byte>, sum: nat)
      returns (more: seq<Input>, t: State)
    requires Reached(addr, slot, inputs, s) && Declared(s, addr, |chunk|, sum) && 1 <= |chunk| <= DATA_MAX
    ensures Reached(addr, slot, more, t) && TookOneBlock(t, addr, chunk, Wrap32(sum + Sum(chunk)))
    ensures Commands(more) == Commands(inputs) + [CMD_DATA]
  {
    var i := DataInput(addr, chunk);
    Reach(addr, slot, inputs, s, i);
    OneBlockArrives(s, addr, chunk, sum, i.fate, 0);
    more, t := inputs + [i], Dispatch(s, i.frame, i.fate).state;
  }

  /** A START whose erase clears every cell and reports failure. */
  lemma EraseFails(addr: byte, slot: seq<byte>, inputs: seq<Input>, s: State, one: seq<byte>, sum: nat, n: nat)
      returns (more: seq<Input>, t: State)
    requires Reached(addr, slot, inputs, s) && TookOneBlock(s, addr, one, sum) && 16 <= n <= APP_SIZE
    ensures Reached(addr, slot, more, t) && Declared(t, addr, n, sum)
    ensures Commands(more) == Commands(inputs) + [CMD_START]
  {
    var i := StartInput(addr, n, Failing());
    Reach(addr, slot, inputs, s, i);
    RefusedStartLeavesStaleSum(s, addr, n, Failing());
    more, t := inputs + [i], Dispatch(s, i.frame, i.fate).state;
  }

  /** A START refused for a size too small, nothing else being wrong. */
  lemma SizeIsRefused(addr: byte, slot: seq<byte>, inputs: seq<Input>, s: State, n: nat, tiny: nat)
      returns (more: seq<Input>, t: State)
    requires Reached(addr, slot, inputs, s) && Declared(s, addr, n, 0) && tiny < 16
    ensures Reached(addr, slot, more, t) && Declared(t, addr, tiny, 0)
    ensures Commands(more) == Commands(inputs) + [CMD_START]
  {
    var i := StartInput(addr, tiny, Calm());
    Reach(addr, slot, inputs, s, i);
    RefusedStartLeavesStaleSum(s, addr, tiny, Calm());
    more, t := inputs + [i], Dispatch(s, i.frame, i.fate).state;
  }

  /**
    From any slot, and always onto erased cells: SELECT, START and DATA for one image, a START whose erase
    reports failure, and DATA for another. END then commits the second image, of legal size, with the first
    one's sum added.
  */
  lemma FailedRestartCommits(addr: byte, slot: seq<byte>, one: seq<byte>, two: seq<byte>, fate: FlashFate)
      returns (inputs: seq<Input>, s: State)
    requires addr != 0 && |slot| == APP_SIZE == |fate.noise| && OneBlockImage(one) && OneBlockImage(two)
    ensures Reached(addr, slot, inputs, s)
    ensures Commands(inputs) == [CMD_SELECT, CMD_START, CMD_DATA, CMD_START, CMD_DATA]
    ensures |s.slot| == APP_SIZE && s.slot[..|two|] == two
    ensures Commit(|two|, Wrap32(Sum32(one) + Sum(two))) in Dispatch(s, EndFrame(addr), fate).actions
  {
    inputs, s := Opens(addr, slot, |one|);
    inputs, s := Arrives(addr, slot, inputs, s, one, 0);
    inputs, s := EraseFails(addr, slot, inputs, s, one, Sum32(one), |two|);
    inputs, s := Arrives(addr, slot, inputs, s, two, Sum32(one));
    OneBlockCommits(s, addr, two, Wrap32(Sum32(one) + Sum(two)), fate);
  }

  /** That sum is the second image's own if and only if the first one's is zero. */
  lemma SumIsWrongIff(one: seq<byte>, two: seq<byte>)
    ensures Wrap32(Sum32(one) + Sum(two)) == Sum32(two) <==> Sum32(one) == 0
  {
    WrapShift(Sum32(one), Sum(two));
  }

  /** Without any fault, a START refused for its size is all it takes to commit an image too small to be one. */
  lemma TinyRestartCommits(addr: byte, slot: seq<byte>, n: nat, tiny: seq<byte>, fate: FlashFate)
      returns (inputs: seq<Input>, s: State)
    requires addr != 0 && |slot| == APP_SIZE == |fate.noise| && 16 <= n <= APP_SIZE && 1 <= |tiny| < 16
    ensures Reached(addr, slot, inputs, s)
    ensures Commands(inputs) == [CMD_SELECT, CMD_START, CMD_START, CMD_DATA]
    ensures |s.slot| == APP_SIZE && Commit(|tiny|, Sum32(tiny)) in Dispatch(s, EndFrame(addr), fate).actions
  {
    inputs, s := Opens(addr, slot, n);
    inputs, s := SizeIsRefused(addr, slot, inputs, s, n, |tiny|);
    inputs, s := Arrives(addr, slot, inputs, s, tiny, 0);
    OneBlockCommits(s, addr, tiny, Sum32(tiny), fate);
  }
}

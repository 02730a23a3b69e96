/** From the host's file to the running application: the download session joined to the boot loader. */
module Upgrade {
  import opened Bytes
  import opened AppImage
  import opened Frames
  import opened Session
  import opened Transfer
  import opened StaleStart
  import Boot

  /** What the session commits is what the boot loader demands of a commit. */
  lemma SessionCommitIsDownloaded(
      s: State, t: Track, data: seq<byte>, f: Frame, fate: FlashFate, size: nat, sum: nat, nvm: Boot.Nvm)
    requires Sendable(data) && VectorSane(data)
    requires Loading(s, t, data, true) && SlotSized(s, fate)
    requires Commit(size, sum) in Dispatch(s, f, fate).actions
    requires nvm.b == s.slot
    ensures Boot.Downloaded(nvm, size, sum) && nvm.b[..size] == data
  {
    TransferCommitIsFaithful(s, t, data, f, fate, true, size, sum);
    SaneInSlot(nvm.b, data);
  }

  // ---------- a transfer inside the life of a board ----------

  /** One event of the transfer is lived as a rewriting of B, after a power cycle if it was one. */
  lemma EventIsLived(
      origin: Boot.Sys, s: Boot.Sys, old': seq<byte>, slot: seq<byte>, e: Event, slot': seq<byte>, cut: Boot.Cut)
      returns (t: Boot.Sys)
    requires Boot.Leads(origin, s) && Boot.Running(s, old', slot) && |slot'| == APP_SIZE == |cut.noise|
    ensures Boot.Leads(origin, t) && Boot.Running(t, old', slot')
  {
    t := s;
    if e.PowerCycle? {
      Boot.PowerCycleKeepsRunning(s, old', slot, cut);
      var off := Boot.Next(s, Boot.PowerOff);
      Boot.LeadsOn(origin, s, Boot.PowerOff, off);
      t := Boot.Next(off, Boot.PowerOn(1, cut));
      Boot.LeadsOn(origin, off, Boot.PowerOn(1, cut), t);
    }
    Boot.ScribbleKeepsRunning(t, old', slot, slot');
    var u := Boot.Next(t, Boot.Scribble(slot'));
    Boot.LeadsOn(origin, t, Boot.Scribble(slot'), u);
    t := u;
  }

  /** Up to its first commit a schedule is lived through by a board whose application keeps running the old image. */
  lemma {:induction false} ScheduleIsLived(
      worlds: seq<World>, events: seq<Event>, addr: byte, data: seq<byte>, k: nat,
      s: Boot.Sys, old': seq<byte>, cut: Boot.Cut) returns (t: Boot.Sys)
    requires Sendable(data) && Schedule(worlds, events, addr, data) && k <= |events|
    requires Boot.Running(s, old', worlds[0].state.slot) && Boot.SysInv(s) && |cut.noise| == APP_SIZE
    ensures Boot.Leads(s, t) && Boot.Running(t, old', worlds[k].state.slot)
    decreases k
  {
    if k == 0 {
      Boot.LeadsNowhere(s);
      return s;
    }
    t := ScheduleIsLived(worlds, events, addr, data, k - 1, s, old', cut);
    EveryScheduleIsFaithful(worlds, events, addr, data, k);
    t := EventIsLived(s, t, old', worlds[k - 1].state.slot, events[k - 1], worlds[k].state.slot, cut);
  }

  lemma FirstCommitIsTheImage(worlds: seq<World>, events: seq<Event>, addr: byte, data: seq<byte>, k: nat)
    requires Sendable(data) && Schedule(worlds, events, addr, data) && k < |events|
    requires worlds[k].commits == [] && worlds[k + 1].commits != []
    ensures var slot, c := worlds[k + 1].state.slot, worlds[k + 1].commits[0];
            && |slot| == APP_SIZE && |data| <= APP_SIZE && slot[..|data|] == data && c.size == |data|
            && (worlds[k + 1].calm ==> c.sum == Sum32(data))
  {
    EveryScheduleIsFaithful(worlds, events, addr, data, k + 1);
    assert worlds[k + 1] == Next(worlds[k], events[k]);
    assert events[k].Deliver?;
    var o := Dispatch(worlds[k].state, events[k].frame, events[k].fate);
    CommitsInAreCommits(o.actions, o.state.slot);
    assert worlds[k + 1].commits == CommitsIn(o.actions, o.state.slot);
    assert Faithful(data, worlds[k + 1].calm, worlds[k + 1].commits[0]);
  }

  /**
    End to end. Take any schedule of a transfer up to its first commit, with no failed erase, and a board
    whose application runs some old image. Some life of the board goes through that schedule; what the
    session commits may be recorded; and from there a life leads to the application being the file sent.
  */
  lemma TransferRuns(
      worlds: seq<World>, events: seq<Event>, addr: byte, data: seq<byte>, k: nat,
      s: Boot.Sys, old': seq<byte>, id: byte, ops: nat, cut: Boot.Cut) returns (mid: Boot.Sys, t: Boot.Sys)
    requires Sendable(data) && VectorSane(data) && Schedule(worlds, events, addr, data) && k < |events|
    requires worlds[k].commits == [] && worlds[k + 1].commits != [] && worlds[k + 1].calm
    requires Boot.Running(s, old', worlds[0].state.slot) && Boot.SysInv(s)
    requires |cut.noise| == APP_SIZE && ops >= 3 + Boot.Chunks(0, |data|)
    ensures Boot.Leads(s, mid) && Boot.Running(mid, old', worlds[k + 1].state.slot)
    ensures var c := worlds[k + 1].commits[0];
            var commit := Boot.CommitFromApp(c.size, c.sum, id, 1, cut);
            && Boot.Possible(mid, commit) && Boot.Leads(Boot.Next(mid, commit), t)
            && t.mode == Boot.App && t.image == Some(data) && Boot.Holds(t.nvm.a, data)
  {
    mid := ScheduleIsLived(worlds, events, addr, data, k + 1, s, old', cut);
    FirstCommitIsTheImage(worlds, events, addr, data, k);
    var slot := worlds[k + 1].state.slot;
    SaneInSlot(slot, data);
    Boot.CommitIsRecorded(mid, old', data, slot, id, cut);
    t := Boot.CommittedLeadsToRunning(
      Boot.Next(mid, Boot.CommitFromApp(|data|, Sum32(data), id, 1, cut)), data, slot, ops, cut);
  }

  // ---------- commits that no file matches ----------

  /** The failed restart of StaleStart, in download mode: both images are in the slots and neither runs any more. */
  lemma FailedRestartNeverRuns(
      addr: byte, slot: seq<byte>, one: seq<byte>, two: seq<byte>, fate: FlashFate,
      nvm: Boot.Nvm, power: nat, cut: Boot.Cut, ops: nat, cut': Boot.Cut) returns (inputs: seq<Input>, s: State)
    requires addr != 0 && |slot| == APP_SIZE == |fate.noise| && OneBlockImage(one) && OneBlockImage(two)
    requires Sum32(one) != 0 && |nvm.a| == |cut.noise| == |cut'.noise| == APP_SIZE
    requires nvm.meta.Some? && nvm.meta.value.magic && power >= 3 + Boot.Chunks(0, |two|) && ops >= 1
    ensures Reached(addr, slot, inputs, s) && |s.slot| == APP_SIZE
    ensures var sum := Wrap32(Sum32(one) + Sum(two));
            && Commit(|two|, sum) in Dispatch(s, EndFrame(addr), fate).actions
            && var r := Boot.BootCommit(Boot.Machine(nvm.(b := s.slot), power, true), |two|, sum, cut);
               && r.outcome == Boot.Restart && |r.m.nvm.a| == |r.m.nvm.b| == APP_SIZE
               && r.m.nvm.a[..|two|] == two
               && Boot.TryBoot(Boot.Machine(r.m.nvm, ops, true), cut').outcome == Boot.Loader
  {
    inputs, s := FailedRestartCommits(addr, slot, one, two, fate);
    SumIsWrongIff(one, two);
    Boot.WrongSumCommitNeverRuns(
      Boot.Machine(nvm.(b := s.slot), power, true), |two|, Wrap32(Sum32(one) + Sum(two)), cut, ops, cut');
  }

  /** The tiny restart of StaleStart, in the application: the board ends in download mode with its old image unused. */
  lemma TinyRestartStopsTheBoard(
      addr: byte, slot: seq<byte>, n: nat, tiny: seq<byte>, fate: FlashFate,
      nvm: Boot.Nvm, power: nat, id: byte, cut: Boot.Cut, ops: nat, cut': Boot.Cut)
      returns (inputs: seq<Input>, s: State)
    requires addr != 0 && |slot| == APP_SIZE == |fate.noise| && 16 <= n <= APP_SIZE && 1 <= |tiny| < 16
    requires |nvm.a| == |cut.noise| == |cut'.noise| == APP_SIZE
    requires nvm.meta.Some? && nvm.meta.value.magic && power >= 1 && ops >= 4
    ensures Reached(addr, slot, inputs, s) && |s.slot| == APP_SIZE
    ensures Commit(|tiny|, Sum32(tiny)) in Dispatch(s, EndFrame(addr), fate).actions
    ensures var m := Boot.Machine(nvm.(b := s.slot), power, true);
            var c := Boot.AppCommit(m, |tiny|, Sum32(tiny), id, cut).nvm;
            && |c.a| == |c.b| == APP_SIZE
            && var r := Boot.TryBoot(Boot.Machine(c, ops, true), cut');
               r.outcome == Boot.Loader && r.m.nvm.a == nvm.a
  {
    inputs, s := TinyRestartCommits(addr, slot, n, tiny, fate);
    Boot.TinyCommitStopsTheBoard(
      Boot.Machine(nvm.(b := s.slot), power, true), |tiny|, Sum32(tiny), id, cut, ops, cut');
  }
}

/**
  The control board: a power-up sequence of five checks stepped every millisecond, and a fault policy
  stepped more slowly beside it, which share the motor rail. Nothing here depends on how the two
  interleave.
*/
module CtuPower {
  import opened Bytes
  import opened Timers

  datatype Stage = Idle | CheckVin | CheckDcdc | EnVin | En24V | Powered

  datatype Pc = Pc(
    cur: Stage, last: Stage, stageMs: nat, pgdSteps: nat, motorDesired: bool, ovMs: nat, ovLatched: bool,
    vin: bool, dc24: bool, aux: bool, motor: bool)

  /** One step's length, both supply voltages and whether both power-good inputs are high. */
  datatype Reading = Reading(e: nat, vinMv: nat, dcdcMv: nat, pgd: bool)

  datatype Policy = Policy(tripped: bool, edgeValid: bool, edgePrev: bool, enPrev: bool, enSince: nat, lowSince: nat)

  datatype Status = Status(now: nat, estop: bool, motorOk: bool)

  datatype Board = Board(pc: Pc, policy: Policy)

  const VIN_MIN: nat := 36000
  const VIN_MAX: nat := 60000
  const OV_TRIP_MV: nat := 65000
  const OV_TRIP_MS: nat := 5000
  const SETTLE_MS: nat := 100
  const PGD_STEPS: nat := 10
  const PGD_SETTLE_MS: nat := 910
  const PGD_DEBOUNCE_MS: nat := 250

  const START := Board(
    Pc(CheckVin, Idle, 0, 0, false, 0, false, false, false, false, false),
    Policy(false, false, false, false, 0, 0))

  // ---------- the sequence ----------

  predicate InRange(vinMv: nat) {
    VIN_MIN <= vinMv <= VIN_MAX
  }

  function Enter(p: Pc): Pc {
    p.(stageMs := 0, pgdSteps := 0, last := p.cur,
       vin := p.vin || p.cur == EnVin, dc24 := p.dc24 || p.cur == En24V)
  }

  function Entered(p: Pc): Pc {
    if p.last != p.cur then Enter(p) else p
  }

  predicate DcdcIsUp(r: Reading) {
    r.vinMv > 0 && Wrap32(r.dcdcMv * 1000) / r.vinMv >= 900
  }

  function HandleIdle(p: Pc, r: Reading): Pc {
    var again := p.ovLatched && InRange(r.vinMv);
    p.(ovLatched := p.ovLatched && !again, ovMs := if again then 0 else p.ovMs, cur := if again then CheckVin else Idle)
  }

  function HandleCheckVin(p: Pc, r: Reading): Pc {
    var ok := InRange(r.vinMv);
    p.(aux := p.aux || ok, stageMs := if ok then 0 else p.stageMs, cur := if ok then CheckDcdc else CheckVin)
  }

  function HandleCheckDcdc(p: Pc, r: Reading): Pc {
    var ok := DcdcIsUp(r);
    p.(stageMs := if ok then 0 else p.stageMs, cur := if ok then EnVin else CheckDcdc)
  }

  function HandleEnVin(p: Pc, r: Reading): Pc {
    var ok := p.stageMs + r.e >= SETTLE_MS;
    p.(stageMs := if ok then 0 else p.stageMs + r.e, cur := if ok then En24V else EnVin)
  }

  function GoodSteps(p: Pc, r: Reading): nat {
    if !r.pgd then 0 else if p.pgdSteps < PGD_STEPS then p.pgdSteps + 1 else p.pgdSteps
  }

  function HandleEn24V(p: Pc, r: Reading): Pc {
    var steps := GoodSteps(p, r);
    var ok := steps >= PGD_STEPS;
    p.(pgdSteps := steps, stageMs := if ok then 0 else p.stageMs, cur := if ok then Powered else En24V)
  }

  predicate OverVoltage(p: Pc, r: Reading) {
    r.vinMv >= OV_TRIP_MV && p.ovMs + r.e >= OV_TRIP_MS
  }

  function HandlePowered(p: Pc, r: Reading): Pc {
    var trip := OverVoltage(p, r);
    p.(vin := p.vin && !trip, dc24 := p.dc24 && !trip, aux := p.aux && !trip,
       motor := (p.motor || p.motorDesired) && !trip,
       stageMs := if trip then 0 else p.stageMs, pgdSteps := if trip then 0 else p.pgdSteps,
       ovLatched := p.ovLatched || trip,
       ovMs := if trip || r.vinMv < OV_TRIP_MV then 0 else p.ovMs + r.e,
       cur := if trip then Idle else Powered)
  }

  function Handle(p: Pc, r: Reading): Pc {
    match p.cur
    case Idle => HandleIdle(p, r)
    case CheckVin => HandleCheckVin(p, r)
    case CheckDcdc => HandleCheckDcdc(p, r)
    case EnVin => HandleEnVin(p, r)
    case En24V => HandleEn24V(p, r)
    case Powered => HandlePowered(p, r)
  }

  function PowerStep(p: Pc, r: Reading): Pc {
    Handle(Entered(p), r)
  }

  /** Switching on waits for the sequence; switching off is immediate. */
  function MotorSet(p: Pc, on: bool): Pc {
    p.(motorDesired := on, motor := if on then p.motor || p.cur == Powered else false)
  }

  // ---------- the policy ----------

  datatype Judged = Judged(policy: Policy, fault: bool)

  /** Loss of the motor rail's power-good: after a settling window, low for the whole debounce time. */
  function Judge(q: Policy, motorOn: bool, st: Status): Judged {
    if !motorOn then Judged(q.(enPrev := false, enSince := 0, lowSince := 0), false)
    else
      var t := q.(enPrev := true, enSince := if q.enPrev then q.enSince else st.now);
      if st.now - t.enSince < PGD_SETTLE_MS then Judged(t, false)
      else if st.motorOk then Judged(t.(lowSince := 0), false)
      else
        var u := t.(lowSince := if t.lowSince == 0 then st.now else t.lowSince);
        Judged(u, st.now - u.lowSince >= PGD_DEBOUNCE_MS)
  }

  function Reset(q: Policy): Policy {
    q.(tripped := false)
  }

  /** Either edge of the button clears the latch; the press then trips it again. */
  function FollowEdge(q: Policy, estop: bool): Policy {
    var edge := q.edgeValid && q.edgePrev != estop;
    q.(edgeValid := true, edgePrev := estop, tripped := q.tripped && !edge)
  }

  function Assess(b: Board, st: Status): Judged {
    if !st.estop && b.pc.cur == Powered then Judge(b.policy, b.pc.motor, st) else Judged(b.policy, false)
  }

  function PolicyTick(b: Board, st: Status): Board {
    var q := FollowEdge(b.policy, st.estop);
    if q.tripped && st.estop then Board(if b.pc.motor then MotorSet(b.pc, false) else b.pc, q)
    else
      var j := Assess(b.(policy := q), st);
      var trip := st.estop || j.fault;
      var p := if trip then MotorSet(b.pc, false) else b.pc;
      var r := j.policy.(tripped := j.policy.tripped || trip);
      var want := !r.tripped && b.pc.cur == Powered && !st.estop && !b.pc.motor;
      Board(if want then MotorSet(p, true) else p, r)
  }

  datatype Event = Power(reading: Reading) | Check(status: Status) | OperatorReset

  function Next(b: Board, e: Event): Board {
    match e
    case Power(r) => b.(pc := PowerStep(b.pc, r))
    case Check(st) => PolicyTick(b, st)
    case OperatorReset => b.(policy := Reset(b.policy))
  }

  // ---------- what every run keeps ----------

  /** The rails come up in order and only with the stage that owns them. */
  predicate Sequenced(p: Pc) {
    && (p.dc24 ==> p.vin) && (p.vin ==> p.aux)
    && (p.motor ==> p.cur == Powered)
    && (p.cur in {Idle, CheckVin} ==> !p.aux)
    && (p.cur == CheckDcdc ==> p.aux && !p.vin)
    && (p.cur == EnVin ==> p.aux && !p.dc24 && (p.last == EnVin ==> p.vin) && p.last in {CheckDcdc, EnVin})
    && (p.cur == En24V ==> p.vin && (p.last == En24V ==> p.dc24) && p.last in {EnVin, En24V})
    && (p.cur == Powered ==> p.dc24)
    && (p.cur != Powered ==> p.ovMs == 0)
    && (p.cur == Idle ==> p.ovLatched) && (p.cur != Idle ==> !p.ovLatched)
    && p.ovMs < OV_TRIP_MS
  }

  predicate Inv(b: Board) {
    && Sequenced(b.pc)
    && (b.policy.tripped ==> !b.pc.motorDesired && !b.pc.motor)
    && (b.policy.edgeValid && b.policy.edgePrev ==> !b.pc.motorDesired && !b.pc.motor)
    && (b.pc.motor ==> b.pc.motorDesired)
  }

  lemma EnteredSequenced(p: Pc)
    requires Sequenced(p)
    ensures Sequenced(Entered(p)) && Entered(p).last == Entered(p).cur == p.cur
    ensures Entered(p).motorDesired == p.motorDesired && Entered(p).motor == p.motor && Entered(p).ovMs == p.ovMs
  {}

  lemma HandledSequenced(p: Pc, r: Reading)
    requires Sequenced(p) && p.last == p.cur
    ensures Sequenced(Handle(p, r)) && Handle(p, r).motorDesired == p.motorDesired
    ensures Handle(p, r).motor ==> p.motor || p.motorDesired
  {}

  lemma PowerStepKeepsInv(b: Board, r: Reading)
    requires Inv(b)
    ensures Inv(Next(b, Power(r)))
  {
    EnteredSequenced(b.pc);
    HandledSequenced(Entered(b.pc), r);
  }

  lemma PolicyKeepsInv(b: Board, st: Status)
    requires Inv(b)
    ensures Inv(PolicyTick(b, st))
  {}

  lemma NextKeepsInv(b: Board, e: Event)
    requires Inv(b)
    ensures Inv(Next(b, e))
  {
    match e
    case Power(r) => PowerStepKeepsInv(b, r);
    case Check(st) => PolicyKeepsInv(b, st);
    case OperatorReset =>
  }

  function Run(b: Board, events: seq<Event>): Board {
    if events == [] then b else Next(Run(b, events[..|events| - 1]), events[|events| - 1])
  }

  lemma {:induction false} RunKeepsInv(b: Board, events: seq<Event>)
    requires Inv(b)
    ensures Inv(Run(b, events))
  {
    if events != [] {
      RunKeepsInv(b, events[..|events| - 1]);
      NextKeepsInv(Run(b, events[..|events| - 1]), events[|events| - 1]);
    }
  }

  /** Rail order in every reachable state of every interleaving. */
  lemma RailOrder(events: seq<Event>)
    ensures var p := Run(START, events).pc;
            && (p.dc24 ==> p.vin) && (p.vin ==> p.aux) && (p.motor ==> p.cur == Powered && p.dc24)
            && (p.cur == Idle ==> !p.aux && !p.vin && !p.dc24 && !p.motor)
  {
    RunKeepsInv(START, events);
  }

  // ---------- emergency stop and latch ----------

  /** No check in this run sees the button released. */
  predicate Unreleased(events: seq<Event>) {
    forall i :: 0 <= i < |events| && events[i].Check? ==> events[i].status.estop
  }

  lemma EstopSeen(b: Board, st: Status)
    requires Inv(b) && st.estop
    ensures var c := PolicyTick(b, st);
            c.policy.edgeValid && c.policy.edgePrev && c.policy.tripped && !c.pc.motor && !c.pc.motorDesired
  {
    PolicyKeepsInv(b, st);
  }

  /** From a check that sees the button pressed until one that sees it released, the motor rail is off and unwanted. */
  lemma {:induction false} EstopHolds(b: Board, st: Status, events: seq<Event>)
    requires Inv(b) && st.estop && Unreleased(events)
    ensures var c := Run(PolicyTick(b, st), events);
            Inv(c) && c.policy.edgeValid && c.policy.edgePrev && !c.pc.motor && !c.pc.motorDesired
  {
    EstopSeen(b, st);
    PolicyKeepsInv(b, st);
    if events != [] {
      var n := |events| - 1;
      EstopHolds(b, st, events[..n]);
      var c := Run(PolicyTick(b, st), events[..n]);
      NextKeepsInv(c, events[n]);
    }
  }

  /** No reset in this run: none asked for, and no edge of the button seen. */
  predicate Undisturbed(estop: bool, events: seq<Event>) {
    forall i :: 0 <= i < |events| ==>
      !events[i].OperatorReset? && (events[i].Check? ==> events[i].status.estop == estop)
  }

  /** A trip keeps the motor rail off through anything but a reset, over-voltage restarts included. */
  lemma {:induction false} TripIsLatched(b: Board, events: seq<Event>)
    requires Inv(b) && b.policy.tripped && b.policy.edgeValid
    requires Undisturbed(b.policy.edgePrev, events)
    ensures var c := Run(b, events);
            && Inv(c) && c.policy.tripped && !c.pc.motor && !c.pc.motorDesired
            && c.policy.edgeValid && c.policy.edgePrev == b.policy.edgePrev
  {
    if events != [] {
      var n := |events| - 1;
      TripIsLatched(b, events[..n]);
      NextKeepsInv(Run(b, events[..n]), events[n]);
    }
  }

  /** A check clears a trip exactly when it sees the button let go. */
  lemma TripClearsIff(b: Board, st: Status)
    requires Inv(b) && b.policy.tripped
    ensures !PolicyTick(b, st).policy.tripped <==> b.policy.edgeValid && b.policy.edgePrev && !st.estop
  {}

  /**
    A check reports the motor rail lost exactly when the rail was on at an earlier check, its settling
    window has passed and its power-good was already found low a debounce time ago. After a fresh enable
    it never does; with timers left over from before a restart it may at once.
  */
  lemma CheckTripsIff(b: Board, st: Status)
    requires Inv(b) && !st.estop && b.pc.cur == Powered && b.pc.motor && !b.policy.tripped
    ensures PolicyTick(b, st).policy.tripped <==>
              && b.policy.enPrev && st.now - b.policy.enSince >= 910 && !st.motorOk
              && b.policy.lowSince != 0 && st.now - b.policy.lowSince >= 250
  {}

  /** Nothing refreshes those timers while the board is out of its powered stage. */
  lemma TimersFreezeOutsidePowered(b: Board, st: Status)
    requires b.pc.cur != Powered
    ensures var q := PolicyTick(b, st).policy;
            q.enPrev == b.policy.enPrev && q.enSince == b.policy.enSince && q.lowSince == b.policy.lowSince
  {}

  /** After a trip an operator reset is enough: the next check of a powered board, button up, restores the rail. */
  lemma ResetRestores(b: Board, st: Status)
    requires Inv(b) && b.policy.tripped && b.pc.cur == Powered && !st.estop
    ensures var c := Next(Next(b, OperatorReset), Check(st)); c.pc.motor && c.pc.motorDesired && !c.policy.tripped
  {}

  /** A wanted motor rail comes on in the powered stage, unless that very step shuts the board down. */
  lemma WantedMotorComesOn(p: Pc, r: Reading)
    requires Sequenced(p) && p.cur == Powered
    ensures PowerStep(p, r).motor <==> (p.motor || p.motorDesired) && !(r.vinMv >= 65000 && p.ovMs + r.e >= 5000)
  {
    EnteredSequenced(p);
  }

  // ---------- the settling window ----------

  /** A check that finds the motor rail off forgets the timers. */
  predicate TimersInOrder(q: Policy) {
    !q.enPrev ==> q.lowSince == 0
  }

  /** Nothing the timers hold is older than an enable first seen at t0. */
  predicate TimersFrom(q: Policy, t0: nat) {
    (q.enPrev ==> q.enSince >= t0) && (q.lowSince != 0 ==> q.lowSince >= t0 + PGD_SETTLE_MS)
  }

  /** The checks of this run fall in the window after t0, and see the button released. */
  predicate InWindow(events: seq<Event>, t0: nat) {
    forall i :: 0 <= i < |events| && events[i].Check? ==>
      !events[i].status.estop && t0 <= events[i].status.now < t0 + 910 + 250
  }

  lemma CheckInWindow(b: Board, st: Status, t0: nat)
    requires !b.policy.tripped && TimersFrom(b.policy, t0)
    requires !st.estop && t0 <= st.now < t0 + PGD_SETTLE_MS + PGD_DEBOUNCE_MS
    ensures !PolicyTick(b, st).policy.tripped && TimersFrom(PolicyTick(b, st).policy, t0)
  {}

  /**
    When the first check that sees the motor rail on, at t0, finds no earlier enable recorded, no check of the
    next 910 ms + 250 ms trips, whatever happens to the rail in between.
  */
  lemma {:induction false} FreshEnableHasItsWindow(b: Board, t0: nat, events: seq<Event>)
    requires !b.policy.enPrev && TimersInOrder(b.policy) && !b.policy.tripped && InWindow(events, t0)
    ensures !Run(b, events).policy.tripped && TimersFrom(Run(b, events).policy, t0)
  {
    if events != [] {
      var n := |events| - 1;
      FreshEnableHasItsWindow(b, t0, events[..n]);
      if events[n].Check? {
        CheckInWindow(Run(b, events[..n]), events[n].status, t0);
      }
    }
  }

  lemma {:induction false} TimersStayInOrder(b: Board, events: seq<Event>)
    requires TimersInOrder(b.policy)
    ensures TimersInOrder(Run(b, events).policy)
  {
    if events != [] {
      TimersStayInOrder(b, events[..|events| - 1]);
    }
  }

  /** In any life, an enable that no earlier check had recorded has its whole settling window and debounce. */
  lemma EveryFreshEnableHasItsWindow(before: seq<Event>, t0: nat, events: seq<Event>)
    requires var b := Run(START, before); !b.policy.enPrev && !b.policy.tripped
    requires InWindow(events, t0)
    ensures !Run(Run(START, before), events).policy.tripped
  {
    TimersStayInOrder(START, before);
    FreshEnableHasItsWindow(Run(START, before), t0, events);
  }

  predicate LowOnlySince(q: Policy, t: nat) {
    q.lowSince != 0 ==> q.lowSince >= t
  }

  /** The checks of this run come within the debounce time after t, and see the button released. */
  predicate WithinDebounce(events: seq<Event>, t: nat) {
    forall i :: 0 <= i < |events| && events[i].Check? ==>
      !events[i].status.estop && t <= events[i].status.now < t + 250
  }

  lemma CheckWithinDebounce(b: Board, st: Status, t: nat)
    requires !b.policy.tripped && LowOnlySince(b.policy, t) && !st.estop && t <= st.now < t + 250
    ensures !PolicyTick(b, st).policy.tripped && LowOnlySince(PolicyTick(b, st).policy, t)
  {}

  lemma {:induction false} LowIsWaitedOut(b: Board, t: nat, events: seq<Event>)
    requires !b.policy.tripped && LowOnlySince(b.policy, t) && WithinDebounce(events, t)
    ensures !Run(b, events).policy.tripped && LowOnlySince(Run(b, events).policy, t)
  {
    if events != [] {
      var n := |events| - 1;
      LowIsWaitedOut(b, t, events[..n]);
      if events[n].Check? {
        CheckWithinDebounce(Run(b, events[..n]), events[n].status, t);
      }
    }
  }

  /** A settled check that finds power-good starts the debounce anew: for 250 ms after it no check trips. */
  lemma GoodCheckRestartsDebounce(b: Board, st: Status, events: seq<Event>)
    requires Inv(b) && b.pc.cur == Powered && b.pc.motor && b.policy.enPrev && st.now >= b.policy.enSince + 910
    requires !b.policy.tripped && !st.estop && st.motorOk && WithinDebounce(events, st.now)
    ensures !Run(PolicyTick(b, st), events).policy.tripped
  {
    LowIsWaitedOut(PolicyTick(b, st), st.now, events);
  }

  lemma RunOfTwo(b: Board, e: Event, f: Event)
    ensures Run(b, [e, f]) == Next(Next(b, e), f)
  {
    assert [e, f][..1] == [e] && [e][..0] == [];
    assert Run(b, [e]) == Next(Run(b, []), e);
  }

  /** An enable recorded before t0 can be tripped inside the window: power-good low at two checks is enough. */
  lemma RecordedEnableTrips(b: Board, t0: nat, t: nat)
    requires Inv(b) && b.pc.cur == Powered && b.pc.motor && !b.policy.tripped && b.policy.enPrev
    requires t0 <= t && t - b.policy.enSince >= PGD_SETTLE_MS && 0 < t && b.policy.lowSince <= t
    ensures var low := PolicyTick(b, Status(t, false, false));
            PolicyTick(low, Status(t + PGD_DEBOUNCE_MS, false, false)).policy.tripped
  {}

  /**
    The exact condition of the settling window. With the motor rail on at t0, no run of checks in the next
    910 ms + 250 ms trips if and only if no earlier check had recorded the enable.
  */
  lemma WindowIsGivenIff(b: Board, t0: nat)
    requires Inv(b) && TimersInOrder(b.policy) && b.pc.cur == Powered && b.pc.motor && !b.policy.tripped
    requires b.policy.enSince < t0 && b.policy.lowSince <= t0
    ensures (forall events :: InWindow(events, t0) ==> !Run(b, events).policy.tripped) <==> !b.policy.enPrev
  {
    if b.policy.enPrev {
      var t := if b.policy.enSince + PGD_SETTLE_MS > t0 then b.policy.enSince + PGD_SETTLE_MS else t0;
      var e, f := Check(Status(t, false, false)), Check(Status(t + PGD_DEBOUNCE_MS, false, false));
      RecordedEnableTrips(b, t0, t);
      RunOfTwo(b, e, f);
      assert InWindow([e, f], t0) && Run(b, [e, f]).policy.tripped;
    } else {
      forall events | InWindow(events, t0) ensures !Run(b, events).policy.tripped {
        FreshEnableHasItsWindow(b, t0, events);
      }
    }
  }

  /** The same in any life. */
  lemma EveryLifeGivesTheWindowIff(before: seq<Event>, t0: nat)
    requires var b := Run(START, before); b.pc.cur == Powered && b.pc.motor && !b.policy.tripped
    requires var b := Run(START, before); b.policy.enSince < t0 && b.policy.lowSince <= t0
    ensures var b := Run(START, before);
            (forall events :: InWindow(events, t0) ==> !Run(b, events).policy.tripped) <==> !b.policy.enPrev
  {
    RunKeepsInv(START, before);
    TimersStayInOrder(START, before);
    WindowIsGivenIff(Run(START, before), t0);
  }

  // ---------- over-voltage ----------

  /** Time for which the supply has been too high up to the end of the run, without a break. */
  function Streak(readings: seq<Reading>): nat {
    if readings == [] then 0
    else
      var n := |readings| - 1;
      if readings[n].vinMv >= 65000 then Streak(readings[..n]) + readings[n].e else 0
  }

  function PowerRun(p: Pc, readings: seq<Reading>): Pc {
    if readings == [] then p else PowerStep(PowerRun(p, readings[..|readings| - 1]), readings[|readings| - 1])
  }

  ghost predicate NeverTooLong(readings: seq<Reading>) {
    forall k :: 0 <= k <= |readings| ==> Streak(readings[..k]) < 5000
  }

  lemma PoweredStep(p: Pc, r: Reading)
    requires Sequenced(p) && p.cur == Powered
    ensures var q := PowerStep(p, r);
            && (q.cur == Powered <==> !OverVoltage(p, r))
            && (q.cur == Powered ==> q.ovMs == if r.vinMv >= OV_TRIP_MV then p.ovMs + r.e else 0)
            && (q.cur != Powered ==> q.cur == Idle && !q.vin && !q.dc24 && !q.aux && !q.motor)
  {
    EnteredSequenced(p);
  }

  lemma StreakNext(readings: seq<Reading>, n: nat)
    requires n + 1 == |readings|
    ensures Streak(readings) == if readings[n].vinMv >= OV_TRIP_MV then Streak(readings[..n]) + readings[n].e else 0
    ensures NeverTooLong(readings) <==> NeverTooLong(readings[..n]) && Streak(readings) < OV_TRIP_MS
  {
    if NeverTooLong(readings[..n]) && Streak(readings) < OV_TRIP_MS {
      TooLongNever(readings, n);
    }
    if NeverTooLong(readings) {
      TooLongNotBefore(readings, n);
      assert readings[..n + 1] == readings;
    }
  }

  lemma TooLongNever(readings: seq<Reading>, n: nat)
    requires n + 1 == |readings| && NeverTooLong(readings[..n]) && Streak(readings) < OV_TRIP_MS
    ensures NeverTooLong(readings)
  {
    forall k | 0 <= k <= |readings| ensures Streak(readings[..k]) < OV_TRIP_MS {
      assert readings[..k] == if k <= n then readings[..n][..k] else readings;
    }
  }

  lemma TooLongNotBefore(readings: seq<Reading>, n: nat)
    requires n + 1 == |readings| && NeverTooLong(readings)
    ensures NeverTooLong(readings[..n])
  {
    forall k | 0 <= k <= n ensures Streak(readings[..n][..k]) < OV_TRIP_MS {
      assert readings[..n][..k] == readings[..k];
    }
  }

  /** Once powered, the board stays powered exactly as long as no unbroken over-voltage adds up to five seconds. */
  lemma {:induction false} PoweredUntilOverVoltage(p: Pc, readings: seq<Reading>)
    requires Sequenced(p) && p.cur == Powered && p.ovMs == 0
    ensures Sequenced(PowerRun(p, readings))
    ensures NeverTooLong(readings) ==>
              PowerRun(p, readings).cur == Powered && PowerRun(p, readings).ovMs == Streak(readings)
    ensures NeverTooLong(readings[..if readings == [] then 0 else |readings| - 1]) && !NeverTooLong(readings) ==>
              var q := PowerRun(p, readings);
              q.cur == Idle && !q.vin && !q.dc24 && !q.aux && !q.motor
  {
    if readings != [] {
      var n := |readings| - 1;
      PoweredUntilOverVoltage(p, readings[..n]);
      StreakNext(readings, n);
      var q := PowerRun(p, readings[..n]);
      EnteredSequenced(q);
      HandledSequenced(Entered(q), readings[n]);
      if q.cur == Powered {
        PoweredStep(q, readings[n]);
      }
    }
  }

  /** Until the supply is back in range every rail stays off. */
  lemma {:induction false} DarkUntilInRange(b: Board, events: seq<Event>)
    requires Inv(b) && b.pc.cur in {Idle, CheckVin}
    requires forall i :: 0 <= i < |events| && events[i].Power? ==> !(36000 <= events[i].reading.vinMv <= 60000)
    ensures var c := Run(b, events);
            Inv(c) && c.pc.cur == b.pc.cur && !c.pc.vin && !c.pc.dc24 && !c.pc.aux && !c.pc.motor
  {
    if events != [] {
      var n := |events| - 1;
      DarkUntilInRange(b, events[..n]);
      NextKeepsInv(Run(b, events[..n]), events[n]);
    }
  }

  // ---------- what each enable waits for ----------

  /** The supply is in range: only then does a waiting board go on, with AUX on, or one shut down start again. */
  lemma RangeIsAskedFor(p: Pc, r: Reading)
    requires Sequenced(p)
    ensures p.cur == CheckVin ==>
              var q := PowerStep(p, r);
              && (q.cur == if 36000 <= r.vinMv <= 60000 then CheckDcdc else CheckVin)
              && (q.aux <==> 36000 <= r.vinMv <= 60000)
    ensures p.cur == Idle ==> PowerStep(p, r).cur == if 36000 <= r.vinMv <= 60000 then CheckVin else Idle
  {
    EnteredSequenced(p);
  }

  /** VIN_DC-DC has reached 90 percent of a present supply, in 32-bit arithmetic. */
  predicate DcdcMet(r: Reading) {
    r.vinMv > 0 && r.dcdcMv * 1000 % 0x1_0000_0000 / r.vinMv >= 900
  }

  lemma DcdcIsAskedFor(p: Pc, r: Reading)
    requires p.cur == CheckDcdc
    ensures PowerStep(p, r).cur == if DcdcMet(r) then EnVin else CheckDcdc
  {
    Wrap32IsModulo(r.dcdcMv * 1000);
  }

  /** Which, short of overflow, is the plain ratio. */
  lemma DcdcIsAskedForPlainly(p: Pc, r: Reading)
    requires p.cur == CheckDcdc && r.dcdcMv * 1000 < 0x1_0000_0000
    ensures PowerStep(p, r).cur == EnVin <==> r.vinMv > 0 && r.dcdcMv * 1000 / r.vinMv >= 900
  {
    assert Wrap32(r.dcdcMv * 1000) == r.dcdcMv * 1000;
    assert DcdcIsUp(r) <==> r.vinMv > 0 && r.dcdcMv * 1000 / r.vinMv >= 900;
  }

  predicate PastDcdc(p: Pc) {
    p.cur in {EnVin, En24V, Powered}
  }

  lemma PastDcdcStep(p: Pc, r: Reading)
    requires Sequenced(p)
    ensures PastDcdc(PowerStep(p, r)) ==> PastDcdc(p) || DcdcMet(r)
  {
    if p.cur == CheckDcdc {
      DcdcIsAskedFor(p, r);
    }
  }

  /** VIN_DC-DC is never on unless some reading since switch-on has shown it at 90 percent of the supply. */
  lemma {:induction false} VinNeedsDcdc(p: Pc, readings: seq<Reading>)
    requires Sequenced(p) && p.cur == CheckVin
    ensures Sequenced(PowerRun(p, readings))
    ensures PowerRun(p, readings).vin || PastDcdc(PowerRun(p, readings)) ==>
              exists k :: 0 <= k < |readings| && DcdcMet(readings[k])
  {
    if readings != [] {
      var n := |readings| - 1;
      VinNeedsDcdc(p, readings[..n]);
      var q := PowerRun(p, readings[..n]);
      EnteredSequenced(q);
      HandledSequenced(Entered(q), readings[n]);
      PastDcdcStep(q, readings[n]);
      if k :| 0 <= k < n && DcdcMet(readings[..n][k]) {
        assert DcdcMet(readings[k]);
      }
    }
  }

  /** How long VIN_DC-DC has been on without a break. */
  function VinTime(p: Pc, readings: seq<Reading>): nat {
    if readings == [] || !PowerRun(p, readings).vin then 0
    else VinTime(p, readings[..|readings| - 1]) + readings[|readings| - 1].e
  }

  /** For how many steps both power-good inputs have been high without a break. */
  function PgdSteps(readings: seq<Reading>): nat {
    if readings == [] || !readings[|readings| - 1].pgd then 0 else 1 + PgdSteps(readings[..|readings| - 1])
  }

  predicate Waited(p: Pc, vinTime: nat, pgdSteps: nat) {
    && (p.cur == EnVin && p.last == EnVin ==> p.stageMs <= vinTime)
    && (p.cur == En24V ==> vinTime >= SETTLE_MS)
    && (p.cur == En24V && p.last == En24V ==> p.pgdSteps <= pgdSteps)
  }

  lemma WaitedStep(p: Pc, r: Reading, vinTime: nat, pgdSteps: nat)
    requires Sequenced(p) && p.cur != Powered && Waited(p, vinTime, pgdSteps)
    ensures var q := PowerStep(p, r);
            && Waited(q, if q.vin then vinTime + r.e else 0, if r.pgd then pgdSteps + 1 else 0)
            && (q.dc24 ==> q.vin && vinTime >= SETTLE_MS)
            && (q.cur == Powered ==> r.pgd && pgdSteps + 1 >= PGD_STEPS)
  {
    EnteredSequenced(p);
  }

  /**
    On the way up, the 24 V rail comes on only after VIN_DC-DC has been on for 100 ms, and the powered
    stage only after ten steps in a row with both power-good inputs high.
  */
  lemma {:induction false} EnablesWait(p: Pc, readings: seq<Reading>)
    requires Sequenced(p) && p.cur == CheckVin
    requires forall k :: 0 <= k < |readings| ==> PowerRun(p, readings[..k]).cur != Powered
    ensures Sequenced(PowerRun(p, readings))
    ensures PowerRun(p, readings).cur != Powered ==>
              Waited(PowerRun(p, readings), VinTime(p, readings), PgdSteps(readings))
    ensures PowerRun(p, readings).dc24 ==> VinTime(p, readings) >= 100
    ensures PowerRun(p, readings).cur == Powered ==> PgdSteps(readings) >= 10
  {
    if readings != [] {
      var n := |readings| - 1;
      forall k | 0 <= k < n ensures PowerRun(p, readings[..n][..k]).cur != Powered {
        assert readings[..n][..k] == readings[..k];
      }
      EnablesWait(p, readings[..n]);
      var q := PowerRun(p, readings[..n]);
      EnteredSequenced(q);
      HandledSequenced(Entered(q), readings[n]);
      WaitedStep(q, readings[n], VinTime(p, readings[..n]), PgdSteps(readings[..n]));
    }
  }

  // ---------- the sequence does not depend on the policy ----------

  /** The sequence without the motor rail. */
  function Core(p: Pc): Pc {
    p.(motor := false, motorDesired := false)
  }

  function ReadingsOf(events: seq<Event>): seq<Reading> {
    if events == [] then []
    else
      var n := |events| - 1;
      if events[n].Power? then ReadingsOf(events[..n]) + [events[n].reading] else ReadingsOf(events[..n])
  }

  lemma CoreOfPowered(p: Pc, r: Reading)
    ensures Core(HandlePowered(p, r)) == HandlePowered(Core(p), r)
  {}

  lemma CoreOfChecks(p: Pc, r: Reading)
    ensures Core(HandleIdle(p, r)) == HandleIdle(Core(p), r)
    ensures Core(HandleCheckVin(p, r)) == HandleCheckVin(Core(p), r)
    ensures Core(HandleCheckDcdc(p, r)) == HandleCheckDcdc(Core(p), r)
  {}

  lemma CoreOfEnables(p: Pc, r: Reading)
    ensures Core(HandleEnVin(p, r)) == HandleEnVin(Core(p), r)
    ensures Core(HandleEn24V(p, r)) == HandleEn24V(Core(p), r)
  {}

  lemma CoreOfStep(p: Pc, r: Reading)
    ensures Core(PowerStep(p, r)) == PowerStep(Core(p), r)
  {
    var q := Entered(p);
    assert Core(q) == Entered(Core(p));
    CoreOfPowered(q, r);
    CoreOfChecks(q, r);
    CoreOfEnables(q, r);
  }

  lemma PolicyKeepsCore(b: Board, st: Status)
    ensures Core(PolicyTick(b, st).pc) == Core(b.pc)
  {}

  /** However the two tasks interleave, the supply rails go through exactly the steps of the sequence alone. */
  lemma {:induction false} SequenceIgnoresPolicy(b: Board, events: seq<Event>)
    ensures Core(Run(b, events).pc) == PowerRun(Core(b.pc), ReadingsOf(events))
  {
    if events != [] {
      var n := |events| - 1;
      SequenceIgnoresPolicy(b, events[..n]);
      var c, rs := Run(b, events[..n]), ReadingsOf(events[..n]);
      match events[n]
      case Power(r) =>
        assert (rs + [r])[..|rs|] == rs;
        CoreOfStep(c.pc, r);
      case Check(st) => PolicyKeepsCore(c, st);
      case OperatorReset =>
    }
  }

  // ---------- a good supply is enough ----------

  predicate Good(r: Reading) {
    && r.e >= 1 && 36000 <= r.vinMv <= 60000 && r.pgd
    && r.dcdcMv * 1000 < 0x1_0000_0000 && r.dcdcMv * 1000 / r.vinMv >= 900
  }

  /** Good steps still needed, at most. */
  function Rank(p: Pc): nat {
    match p.cur
    case Idle => 113
    case CheckVin => 112
    case CheckDcdc => 111
    case EnVin => 10 + (if p.last == EnVin then Left(100, p.stageMs) else 100)
    case En24V => if p.last == En24V then Left(10, p.pgdSteps) else 10
    case Powered => 0
  }

  lemma EnteredRank(p: Pc)
    ensures Rank(Entered(p)) == Rank(p)
  {}

  lemma HandledRank(p: Pc, r: Reading)
    requires Sequenced(p) && p.last == p.cur && Good(r)
    ensures if Rank(p) == 0 then Rank(Handle(p, r)) == 0 else Rank(Handle(p, r)) < Rank(p)
  {}

  /** From any reachable state, 113 steps of good supply bring the board to its powered stage, and keep it there. */
  lemma {:induction false} GoodSupplyPowersUp(p: Pc, readings: seq<Reading>)
    requires Sequenced(p) && forall i :: 0 <= i < |readings| ==> Good(readings[i])
    ensures Sequenced(PowerRun(p, readings))
    ensures Rank(PowerRun(p, readings)) == 0 || Rank(PowerRun(p, readings)) + |readings| <= Rank(p) <= 113
    ensures |readings| >= 113 ==> PowerRun(p, readings).cur == Powered
  {
    if readings != [] {
      var n := |readings| - 1;
      GoodSupplyPowersUp(p, readings[..n]);
      var q := PowerRun(p, readings[..n]);
      EnteredSequenced(q);
      EnteredRank(q);
      HandledSequenced(Entered(q), readings[n]);
      HandledRank(Entered(q), readings[n]);
    }
  }
}

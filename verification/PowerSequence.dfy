/**
  The main power board: the power-up sequence, the soft start it drives, and the fault policy that may
  cut everything off after any step.
*/
module PowerSequence {
  import opened Bytes
  import opened Timers
  import opened SoftStart

  datatype Stage = Off | Aux | Precharging | Motor | Done

  /** The sequence's context and the rails it drives; the charging rail belongs to the soft start. */
  datatype Pwr = Pwr(
    cur: Stage, last: Stage, requested: bool, steadyMs: nat, handedOver: bool,
    auxFlag: bool, motorFlag: bool, dbrFlag: bool, dbrCount: nat, aux: bool, motor: bool, dbr: bool)

  datatype Board = Board(pre: Pre, pwr: Pwr, tripped: bool, lastEstop: bool)

  datatype Status = Status(estop: bool, motorOk: bool, auxOk: bool, otherFault: bool)

  const STEADY_MS: nat := 50
  const HANDOVER_MS: nat := 200
  const DBR_MS: nat := 3000
  const DBR_MV: nat := 5000

  const START := Board(
    POWER_UP, Pwr(Off, Off, false, 0, false, false, false, false, 0, true, false, false), false, false)

  // ---------- the sequence ----------

  function EnterStage(b: Board): Board {
    var w := b.pwr.(steadyMs := 0, last := b.pwr.cur);
    match w.cur
    case Aux => b.(pwr := w.(auxFlag := true, aux := true, dbr := false))
    case Precharging => b.(pwr := w, pre := Begin(b.pre))
    case Motor => b.(pwr := w.(handedOver := false, motorFlag := true, motor := true))
    case _ => b.(pwr := w)
  }

  function EnteredStage(b: Board): Board {
    if b.pwr.last != b.pwr.cur then EnterStage(b) else b
  }

  /** The bus has reached 98 percent of the supply, in 32-bit arithmetic. */
  predicate BusIsUp(p: Pre) {
    p.vinMv > 0 && p.busMv >= Wrap32(p.vinMv * 98) / 100
  }

  /** The brake resistor stays on while the bus is up, for at most three seconds of idling. */
  predicate KeepsBraking(w: Pwr, busMv: nat) {
    w.dbrFlag && busMv >= DBR_MV && w.dbrCount <= DBR_MS
  }

  function Discharged(w: Pwr, busMv: nat): Pwr {
    var keep := KeepsBraking(w, busMv);
    w.(dbrFlag := keep,
       dbr := w.dbr && (keep || !w.dbrFlag),
       dbrCount := if keep then w.dbrCount + 1 else if w.dbrFlag then 0 else w.dbrCount)
  }

  function HandleOff(b: Board): Board {
    b.(pwr := Discharged(b.pwr, b.pre.busMv).(cur := if b.pwr.requested then Aux else Off))
  }

  function HandleAux(b: Board): Board {
    b.(pwr := b.pwr.(cur := if b.pwr.steadyMs >= STEADY_MS then Precharging else Aux))
  }

  function HandlePrecharging(b: Board): Board {
    var failed := b.pre.failure != NoFailure;
    b.(pwr := b.pwr.(
      requested := b.pwr.requested && !failed,
      cur := if failed then Off else if b.pre.done then Motor else Precharging))
  }

  /** The charging output is dropped once the bus is up, or after 200 ms in any case. */
  predicate HandsOver(b: Board) {
    !b.pwr.handedOver && (BusIsUp(b.pre) || b.pwr.steadyMs >= HANDOVER_MS)
  }

  function HandedOver(b: Board): Board {
    b.(pre := if HandsOver(b) then Reset(b.pre) else b.pre,
       pwr := b.pwr.(handedOver := b.pwr.handedOver || HandsOver(b)))
  }

  function HandleMotor(b: Board): Board {
    var h := HandedOver(b);
    h.(pwr := h.pwr.(cur := if h.pwr.handedOver && b.pwr.steadyMs >= STEADY_MS then Done else Motor))
  }

  function HandleStage(b: Board): Board {
    match b.pwr.cur
    case Off => HandleOff(b)
    case Aux => HandleAux(b)
    case Precharging => HandlePrecharging(b)
    case Motor => HandleMotor(b)
    case Done => b
  }

  function Add16(x: nat, e: nat): nat {
    if x + e < 65536 then x + e else (x + e) % 65536
  }

  function PowerStep(b: Board, e: nat): Board {
    HandleStage(EnteredStage(b.(pwr := b.pwr.(steadyMs := Add16(b.pwr.steadyMs, e)))))
  }

  /** One step of the controller: first the soft start, then the sequence. */
  function BoardStep(b: Board, e: nat, s: Sample): Board {
    PowerStep(b.(pre := Step(b.pre, e, s)), e)
  }

  function RequestOn(b: Board): Board {
    b.(pwr := b.pwr.(requested := true))
  }

  function EmergencyOff(b: Board): Board {
    if !b.pwr.requested then b
    else b.(
      pre := Reset(b.pre),
      pwr := b.pwr.(requested := false, steadyMs := 0, auxFlag := false, motorFlag := false, dbrFlag := true,
                    last := b.pwr.cur, cur := Off, motor := false, dbr := true))
  }

  // ---------- the fault policy ----------

  predicate Critical(b: Board, st: Status) {
    (b.pwr.motorFlag && !st.motorOk) || (b.pwr.auxFlag && !st.auxOk) || st.otherFault
  }

  function Trip(b: Board, st: Status): Board {
    if st.estop || (b.pwr.cur == Done && Critical(b, st)) then EmergencyOff(b).(tripped := true) else b
  }

  function OperatorReset(b: Board): Board {
    b.(tripped := false)
  }

  /** Releasing the button clears the trip and asks for power again. */
  function FollowButton(b: Board, estop: bool): Board {
    if b.lastEstop == estop then b
    else if estop then b.(lastEstop := true)
    else RequestOn(OperatorReset(b.(lastEstop := false)))
  }

  function Policy(b: Board, st: Status): Board {
    if b.tripped && st.estop then b else FollowButton(Trip(b, st), st.estop)
  }

  /** One millisecond of the power task. */
  function Tick(b: Board, s: Sample, st: Status): Board {
    Policy(BoardStep(b, 1, s), st)
  }

  // ---------- what every run keeps ----------

  predicate AtRest(p: Pre) {
    (p.cur == Phase.Idle && !p.startRequested) || p.cur == Fault
  }

  predicate Quiet(p: Pre) {
    p.cur == Phase.Idle && !p.startRequested
  }

  /** How far the soft start is, by the stage of the sequence. */
  predicate Coupled(b: Board) {
    var w, p := b.pwr, b.pre;
    && (w.cur in {Off, Aux} || (w.cur == Precharging && w.last != Precharging) ==> AtRest(p))
    && (w.cur == Precharging && w.last == Precharging ==> Started(p) && p.failure == NoFailure && !p.done)
    && (w.cur == Motor && (w.last != Motor || !w.handedOver) ==> p.done)
    && (w.cur == Motor && w.last == Motor && w.handedOver ==> Quiet(p))
    && (w.cur == Done ==> Quiet(p))
  }

  predicate Rails(b: Board) {
    var w, p := b.pwr, b.pre;
    && (w.cur != Off ==> w.requested)
    && w.motorFlag == w.motor
    && (w.motor <==> (w.cur == Motor && w.last == Motor) || w.cur == Done)
    && (w.dbr ==> w.dbrFlag && Quiet(p) && (w.cur == Off || (w.cur == Aux && w.last == Off)))
    && w.aux && (w.cur in {Precharging, Motor, Done} || (w.cur == Aux && w.last == Aux) ==> w.auxFlag)
    && (w.cur == Aux ==> w.last in {Off, Aux})
    && (w.cur == Motor ==> w.last in {Precharging, Motor})
    && (w.cur == Precharging ==> w.last in {Aux, Precharging})
  }

  predicate Latches(b: Board) {
    (b.tripped || b.lastEstop) ==> !b.pwr.requested
  }

  predicate Inv(b: Board) {
    SoftStart.Inv(b.pre) && Coupled(b) && Rails(b) && Latches(b)
  }

  /** The coupling while the soft start has stepped and the sequence has not looked at it yet. */
  predicate HalfStepped(b: Board) {
    var w, p := b.pwr, b.pre;
    && SoftStart.Inv(p) && Rails(b) && Latches(b)
    && (w.cur in {Off, Aux} || (w.cur == Precharging && w.last != Precharging) ==> AtRest(p))
    && (w.cur == Precharging && w.last == Precharging ==> Started(p))
    && (w.cur == Motor && (w.last != Motor || !w.handedOver) ==> p.done)
    && (w.cur == Motor && w.last == Motor && w.handedOver ==> Quiet(p))
    && (w.cur == Done ==> Quiet(p))
  }

  lemma SettledStays(p: Pre, e: nat, s: Sample)
    requires SoftStart.Inv(p)
    ensures AtRest(p) ==> AtRest(Step(p, e, s)) && !Step(p, e, s).chgEn
    ensures Quiet(p) ==> Quiet(Step(p, e, s))
    ensures p.done ==> Step(p, e, s).done
  {}

  lemma SoftStartHalf(b: Board, e: nat, s: Sample)
    requires Inv(b)
    ensures HalfStepped(b.(pre := Step(b.pre, e, s)))
  {
    StepKeepsInv(b.pre, e, s);
    SettledStays(b.pre, e, s);
    if Started(b.pre) {
      StepStarted(b.pre, e, s);
    }
  }

  lemma EnteredHalf(b: Board)
    requires HalfStepped(b)
    ensures HalfStepped(EnteredStage(b)) && EnteredStage(b).pwr.last == EnteredStage(b).pwr.cur == b.pwr.cur
  {
    ResetKeepsInv(b.pre);
  }

  lemma HandledMotorInv(b: Board)
    requires HalfStepped(b) && b.pwr.last == b.pwr.cur == Motor
    ensures Inv(HandleStage(b))
  {
    ResetKeepsInv(b.pre);
  }

  lemma HandledOffInv(b: Board)
    requires HalfStepped(b) && b.pwr.last == b.pwr.cur == Off
    ensures Inv(HandleStage(b))
  {}

  lemma HandledInv(b: Board)
    requires HalfStepped(b) && b.pwr.last == b.pwr.cur
    ensures Inv(HandleStage(b))
  {
    if b.pwr.cur == Motor {
      HandledMotorInv(b);
    } else if b.pwr.cur == Off {
      HandledOffInv(b);
    }
  }

  lemma BoardStepKeepsInv(b: Board, e: nat, s: Sample)
    requires Inv(b)
    ensures Inv(BoardStep(b, e, s))
  {
    var h := b.(pre := Step(b.pre, e, s));
    SoftStartHalf(b, e, s);
    var t := h.(pwr := h.pwr.(steadyMs := Add16(h.pwr.steadyMs, e)));
    EnteredHalf(t);
    HandledInv(EnteredStage(t));
  }

  lemma EmergencyOffKeepsInv(b: Board)
    requires Inv(b)
    ensures Inv(EmergencyOff(b)) && !EmergencyOff(b).pwr.requested
  {
    ResetKeepsInv(b.pre);
  }

  lemma PolicyKeepsInv(b: Board, st: Status)
    requires Inv(b)
    ensures Inv(Policy(b, st))
  {
    EmergencyOffKeepsInv(b);
  }

  /**
    Rail order, in every reachable state: the motor rail is on only in the last two stages, the charging
    output and the motor rail are never on with the brake resistor, and once powered the charging output
    is off and the soft start idle.
  */
  lemma RailOrder(b: Board)
    requires Inv(b)
    ensures b.pwr.motor ==> b.pwr.requested && b.pwr.cur in {Motor, Done}
    ensures b.pwr.dbr ==> !b.pwr.motor && !b.pre.chgEn
    ensures b.pwr.cur == Done ==> b.pwr.motor && !b.pre.chgEn && b.pre.cur == Phase.Idle
    ensures b.pre.chgEn ==> b.pwr.requested || (b.pre.cur == Fault && b.pre.last == RampDuty && b.pre.failure == NoLoad)
  {}

  lemma HandledPre(b: Board)
    ensures HandleStage(b).pre == b.pre || HandleStage(b).pre.cur == Phase.Idle
  {}

  lemma HandledMotorRail(b: Board)
    ensures HandleStage(b).pwr.motor == b.pwr.motor
  {}

  lemma EnteredPre(b: Board)
    ensures EnteredStage(b).pre == b.pre || EnteredStage(b).pre.cur == Phase.Idle
    ensures EnteredStage(b).pwr.motor == b.pwr.motor || b.pwr.cur == Motor != b.pwr.last
  {}

  lemma MotorComesOnAtEntry(b: Board, e: nat)
    requires !b.pwr.motor && PowerStep(b, e).pwr.motor
    ensures b.pwr.cur == Motor != b.pwr.last
  {
    var t := b.(pwr := b.pwr.(steadyMs := Add16(b.pwr.steadyMs, e)));
    EnteredPre(t);
    HandledMotorRail(EnteredStage(t));
  }

  /** The motor rail is switched on only by a soft start that reached its steady state without a failure. */
  lemma MotorNeedsSteady(b: Board, e: nat, s: Sample)
    requires Inv(b) && !b.pwr.motor && BoardStep(b, e, s).pwr.motor
    ensures var p := Step(b.pre, e, s); p.cur == Steady && p.done && p.failure == NoFailure
  {
    MotorComesOnAtEntry(b.(pre := Step(b.pre, e, s)), e);
    SoftStartHalf(b, e, s);
  }

  lemma HandOverNeedsIff(b: Board)
    requires HalfStepped(b) && b.pwr.cur == b.pwr.last == Motor && !b.pwr.handedOver && b.pre.vinMv * 98 < 0x1_0000_0000
    ensures var c := HandleStage(b);
            && (c.pwr.handedOver <==>
                  (b.pre.vinMv > 0 && b.pre.busMv >= b.pre.vinMv * 98 / 100) || b.pwr.steadyMs >= 200)
            && (c.pwr.handedOver <==> !c.pre.chgEn && Quiet(c.pre))
            && (c.pwr.cur == Done <==> c.pwr.handedOver && b.pwr.steadyMs >= 50)
  {
    ResetKeepsInv(b.pre);
  }

  /**
    The hand-over. With the motor rail on, the charging output is dropped exactly when the bus has reached 98
    percent of the supply or 200 ms have passed; the board is powered after that, and after 50 ms at least.
  */
  lemma HandsOverIff(b: Board, e: nat, s: Sample)
    requires Inv(b) && b.pwr.cur == b.pwr.last == Motor && !b.pwr.handedOver && b.pwr.steadyMs + e < 65536
    requires s.vinMv * 98 < 0x1_0000_0000 && b.pre.vinMv * 98 < 0x1_0000_0000
    ensures var c, t := BoardStep(b, e, s), b.pwr.steadyMs + e;
            var vin, bus := if s.updated then s.vinMv else b.pre.vinMv, if s.updated then s.busMv else b.pre.busMv;
            && (c.pwr.handedOver <==> (vin > 0 && bus >= vin * 98 / 100) || t >= 200)
            && (c.pwr.handedOver <==> !c.pre.chgEn && Quiet(c.pre))
            && (c.pwr.cur == Done <==> c.pwr.handedOver && t >= 50)
  {
    SoftStartHalf(b, e, s);
    SteadyKeepsSample(b.pre, e, s);
    HandOverNeedsIff(b.(pre := Step(b.pre, e, s), pwr := b.pwr.(steadyMs := Add16(b.pwr.steadyMs, e))));
  }

  lemma SteadyKeepsSample(p: Pre, e: nat, s: Sample)
    requires p.cur == Steady
    ensures Step(p, e, s).busMv == if s.updated then s.busMv else p.busMv
    ensures Step(p, e, s).vinMv == if s.updated then s.vinMv else p.vinMv
  {}

  /** A board that has handed over waits out the rest of its 50 ms and is powered. */
  lemma HandedOverIsPowered(b: Board, e: nat, s: Sample)
    requires Inv(b) && b.pwr.cur == b.pwr.last == Motor && b.pwr.handedOver && b.pwr.steadyMs + e < 65536
    ensures BoardStep(b, e, s).pwr.cur == Done <==> b.pwr.steadyMs + e >= 50
  {}

  /** The sequence leaves its first stage after 50 ms, and the soft start for the motor rail when that is done. */
  lemma StagesEnd(b: Board, e: nat, s: Sample)
    requires Inv(b) && b.pwr.last == b.pwr.cur && b.pwr.steadyMs + e < 65536
    ensures b.pwr.cur == Aux ==> (BoardStep(b, e, s).pwr.cur == Precharging <==> b.pwr.steadyMs + e >= 50)
    ensures b.pwr.cur == Precharging ==>
              (BoardStep(b, e, s).pwr.cur == Motor <==> Step(b.pre, e, s).done)
  {
    SoftStartHalf(b, e, s);
  }

  /** The clock of a stage starts at zero with its first step, whatever went before, and is 16 bits wide. */
  lemma StageClock(b: Board, e: nat, s: Sample)
    ensures BoardStep(b, e, s).pwr.steadyMs == if b.pwr.last != b.pwr.cur then 0 else (b.pwr.steadyMs + e) % 65536
  {
    var t := b.(pre := Step(b.pre, e, s), pwr := b.pwr.(steadyMs := Add16(b.pwr.steadyMs, e)));
    assert t.pwr.steadyMs == (b.pwr.steadyMs + e) % 65536;
    EnteredClock(t);
    HandledKeepsClock(EnteredStage(t));
    assert BoardStep(b, e, s) == HandleStage(EnteredStage(t));
  }

  lemma EnteredClock(b: Board)
    ensures EnteredStage(b).pwr.steadyMs == if b.pwr.last != b.pwr.cur then 0 else b.pwr.steadyMs
  {
    StageEntryClock(b, b.pwr.cur);
  }

  lemma StageEntryClock(b: Board, stage: Stage)
    requires b.pwr.cur == stage
    ensures EnterStage(b).pwr.steadyMs == 0
  {
    match stage
    case Off => {}
    case Aux => {}
    case Precharging => {}
    case Motor => {}
    case Done => {}
  }

  lemma HandledKeepsClock(b: Board)
    ensures HandleStage(b).pwr.steadyMs == b.pwr.steadyMs
  {}

  // ---------- emergency stop ----------

  lemma EmergencyOffCuts(b: Board)
    requires Inv(b)
    ensures var c := EmergencyOff(b);
            && !c.pwr.motor && !c.pwr.requested && c.pwr.aux
            && (c.pre.chgEn <==> b.pre.chgEn && !b.pwr.requested)
            && (b.pwr.requested ==> c.pwr.cur == Off && c.pwr.dbr && !c.pwr.auxFlag && Quiet(c.pre) && c.pre.duty == 0)
  {
    ResetKeepsInv(b.pre);
  }

  /**
    The duty ramp is at least 50 ms old and the bus still below a volt: in this step the sequence will give
    up, with the charging output still on.
  */
  predicate NoLoadNow(b: Board, s: Sample) {
    && b.pre.cur == RampDuty && !s.ocp && Elapsed(b.pre) + 1 >= 50
    && (if s.updated then s.busMv else b.pre.busMv) < 1000
  }

  lemma NoLoadIsFault(b: Board, s: Sample)
    requires b.pre.cur == RampDuty
    ensures NoLoadNow(b, s) <==> Step(b.pre, 1, s).cur == Fault
  {}

  lemma RampDutyIsPrecharging(b: Board)
    requires Inv(b) && b.pre.cur == RampDuty
    ensures b.pwr.cur == b.pwr.last == Precharging
  {}

  lemma NoLoadGivesUp(b: Board, s: Sample)
    requires Inv(b) && NoLoadNow(b, s)
    ensures var c := BoardStep(b, 1, s);
            c.pre == Step(b.pre, 1, s) && c.pre.chgEn && !c.pwr.requested && c.pwr.cur == Off
  {
    NoLoadIsFault(b, s);
    RampDutyIsPrecharging(b);
  }

  lemma ChargeImpliesRequestUnlessNoLoad(b: Board, s: Sample)
    requires Inv(b) && !NoLoadNow(b, s)
    ensures BoardStep(b, 1, s).pre.chgEn ==> BoardStep(b, 1, s).pwr.requested
  {
    BoardStepKeepsInv(b, 1, s);
    var c, p := BoardStep(b, 1, s), Step(b.pre, 1, s);
    if c.pre.chgEn && !c.pwr.requested {
      assert c.pre.cur == Fault;
      PowerStepKeepsFault(b.(pre := p), 1);
      FaultFromRamp(b.pre, s);
      NoLoadIsFault(b, s);
    }
  }

  lemma PowerStepKeepsFault(b: Board, e: nat)
    requires PowerStep(b, e).pre.cur == Fault
    ensures PowerStep(b, e).pre == b.pre
  {
    var t := b.(pwr := b.pwr.(steadyMs := Add16(b.pwr.steadyMs, e)));
    EnteredPre(t);
    HandledPre(EnteredStage(t));
  }

  lemma FaultFromRamp(p: Pre, s: Sample)
    requires SoftStart.Inv(p) && Step(p, 1, s).cur == Fault && Step(p, 1, s).chgEn
    ensures p.cur == RampDuty
  {}

  /**
    After every millisecond that samples the button pressed the motor rail is off and nothing is
    requested. The charging output is off too, except exactly when that same step found no load.
  */
  lemma EstopCutsPower(b: Board, s: Sample, st: Status)
    requires Inv(b) && st.estop
    ensures var c := Tick(b, s, st);
            && !c.pwr.motor && !c.pwr.requested && c.tripped
            && (c.pre.chgEn <==> NoLoadNow(b, s))
  {
    var c := BoardStep(b, 1, s);
    BoardStepKeepsInv(b, 1, s);
    EmergencyOffCuts(c);
    if NoLoadNow(b, s) {
      NoLoadGivesUp(b, s);
    } else {
      ChargeImpliesRequestUnlessNoLoad(b, s);
    }
  }

  lemma PolicySwitchesNothingOn(b: Board, st: Status)
    ensures var c := Policy(b, st); (c.pwr.motor ==> b.pwr.motor) && (c.pre.chgEn ==> b.pre.chgEn)
  {}

  lemma RestingStepIsDark(b: Board, s: Sample)
    requires Inv(b) && b.pwr.cur == Off && !b.pwr.requested
    ensures var c := BoardStep(b, 1, s); !c.pwr.motor && !c.pre.chgEn
  {
    SettledStays(b.pre, 1, s);
    var h := b.(pre := Step(b.pre, 1, s));
    var x := EnteredStage(h.(pwr := h.pwr.(steadyMs := Add16(h.pwr.steadyMs, 1))));
    assert x.pwr.cur == Off && x.pre == h.pre && !x.pwr.motor;
    assert HandleStage(x) == HandleOff(x);
  }

  lemma UnrequestedIsDark(b: Board, s: Sample, st: Status)
    requires Inv(b) && !b.pwr.requested
    ensures !Tick(b, s, st).pwr.motor && !Tick(b, s, st).pre.chgEn
  {
    RestingStepIsDark(b, s);
    PolicySwitchesNothingOn(BoardStep(b, 1, s), st);
  }

  /** One millisecond after a sampled press everything is off in any case, whatever happens in it. */
  lemma NextMillisecondIsDark(b: Board, s: Sample, st: Status, s': Sample, st': Status)
    requires Inv(b) && st.estop
    ensures var c := Tick(Tick(b, s, st), s', st'); !c.pwr.motor && !c.pre.chgEn
  {
    BoardStepKeepsInv(b, 1, s);
    PolicyKeepsInv(BoardStep(b, 1, s), st);
    EstopCutsPower(b, s, st);
    UnrequestedIsDark(Tick(b, s, st), s', st');
  }

  datatype Event = Millisecond(sample: Sample, status: Status) | ResetByOperator

  function Next(b: Board, e: Event): Board {
    match e
    case Millisecond(s, st) => Tick(b, s, st)
    case ResetByOperator => OperatorReset(b)
  }

  function After(b: Board, events: seq<Event>): Board {
    if events == [] then b else Next(After(b, events[..|events| - 1]), events[|events| - 1])
  }

  /** The board after a run of milliseconds and operator resets, from switch-on. */
  function Life(autoStart: bool, events: seq<Event>): Board {
    After(if autoStart then RequestOn(START) else START, events)
  }

  lemma NextKeepsInv(b: Board, e: Event)
    requires Inv(b)
    ensures Inv(Next(b, e))
  {
    if e.Millisecond? {
      BoardStepKeepsInv(b, 1, e.sample);
      PolicyKeepsInv(BoardStep(b, 1, e.sample), e.status);
    }
  }

  lemma {:induction false} LifeKeepsInv(autoStart: bool, events: seq<Event>)
    ensures Inv(Life(autoStart, events))
  {
    if events != [] {
      LifeKeepsInv(autoStart, events[..|events| - 1]);
      NextKeepsInv(Life(autoStart, events[..|events| - 1]), events[|events| - 1]);
    }
  }

  /**
    Over any life of presses, faults and resets a tripped board asks for no power, and a press leaves none but
    the charging output in the exceptional millisecond.
  */
  lemma EstopOverWholeLives(autoStart: bool, events: seq<Event>)
    ensures var b := Life(autoStart, events);
            (b.tripped ==> !b.pwr.requested && !b.pwr.motor) && (b.pwr.dbr ==> !b.pwr.motor && !b.pre.chgEn)
    ensures events != [] && events[|events| - 1].Millisecond? && events[|events| - 1].status.estop
            ==> var b, e := Life(autoStart, events), events[|events| - 1];
                && !b.pwr.motor && !b.pwr.requested
                && (b.pre.chgEn <==> NoLoadNow(Life(autoStart, events[..|events| - 1]), e.sample))
  {
    LifeKeepsInv(autoStart, events);
    RailOrder(Life(autoStart, events));
    if events != [] && events[|events| - 1].Millisecond? && events[|events| - 1].status.estop {
      var n := |events| - 1;
      LifeKeepsInv(autoStart, events[..n]);
      EstopCutsPower(Life(autoStart, events[..n]), events[n].sample, events[n].status);
    }
  }

  lemma BeginStaysOnRamp(b: Board)
    requires OnRamp(b.pre)
    ensures OnRamp(Reset(b.pre)) && OnRamp(Begin(b.pre))
  {}

  lemma EnteredStaysOnRamp(b: Board)
    requires OnRamp(b.pre)
    ensures OnRamp(EnteredStage(b).pre)
  {
    BeginStaysOnRamp(b);
    assert EnteredStage(b).pre in {b.pre, Begin(b.pre)};
  }

  lemma HandledStaysOnRamp(b: Board)
    requires OnRamp(b.pre)
    ensures OnRamp(HandleStage(b).pre)
  {
    BeginStaysOnRamp(b);
    assert HandleStage(b).pre in {b.pre, Reset(b.pre)};
  }

  lemma PowerStepStaysOnRamp(b: Board, e: nat)
    requires OnRamp(b.pre)
    ensures OnRamp(PowerStep(b, e).pre)
  {
    var t := b.(pwr := b.pwr.(steadyMs := Add16(b.pwr.steadyMs, e)));
    EnteredStaysOnRamp(t);
    HandledStaysOnRamp(EnteredStage(t));
  }

  lemma PolicyStaysOnRamp(b: Board, st: Status)
    requires OnRamp(b.pre)
    ensures OnRamp(Policy(b, st).pre)
  {
    BeginStaysOnRamp(b);
  }

  /** Duty and frequency keep to the ramp, and to their limits, over any life. */
  lemma {:induction false} LifeStaysOnRamp(autoStart: bool, events: seq<Event>)
    ensures OnRamp(Life(autoStart, events).pre)
  {
    if events != [] {
      var n := |events| - 1;
      LifeStaysOnRamp(autoStart, events[..n]);
      LifeKeepsInv(autoStart, events[..n]);
      var b := Life(autoStart, events[..n]);
      if events[n].Millisecond? {
        StepStaysOnRamp(b.pre, 1, events[n].sample);
        PowerStepStaysOnRamp(b.(pre := Step(b.pre, 1, events[n].sample)), 1);
        PolicyStaysOnRamp(BoardStep(b, 1, events[n].sample), events[n].status);
      }
    }
  }

  /** A powered board with the button up trips exactly on a critical fault, and such a trip has noticed no press. */
  lemma FaultTripsIff(b: Board, s: Sample, st: Status)
    requires Inv(b) && b.pwr.cur == Done && !b.tripped && !b.lastEstop && !st.estop
    ensures var c := Tick(b, s, st);
            && (c.tripped <==> !st.motorOk || !st.auxOk || st.otherFault)
            && !c.lastEstop && (c.tripped ==> !c.pwr.requested && !c.pwr.motor)
  {
    BoardStepKeepsInv(b, 1, s);
    PolicyKeepsInv(BoardStep(b, 1, s), st);
  }

  /**
    A trip caused by a fault rather than by the button is not undone by pressing and releasing it:
    only an operator reset clears it, since a press while tripped is not remembered.
  */
  lemma FaultTripIgnoresButton(b: Board, s: Sample, st: Status)
    requires Inv(b) && b.tripped && !b.lastEstop
    ensures var c := Tick(b, s, st); Inv(c) && c.tripped && !c.lastEstop && !c.pwr.requested
  {
    BoardStepKeepsInv(b, 1, s);
    PolicyKeepsInv(BoardStep(b, 1, s), st);
  }

  lemma UnrequestedMotorIsOff(b: Board)
    requires Inv(b) && !b.pwr.requested
    ensures !b.pwr.motor
  {}

  lemma {:induction false} FaultTripIsLatched(b: Board, events: seq<Event>)
    requires Inv(b) && b.tripped && !b.lastEstop
    requires forall i :: 0 <= i < |events| ==> events[i].Millisecond?
    ensures var c := After(b, events); Inv(c) && c.tripped && !c.lastEstop && !c.pwr.requested && !c.pwr.motor
    decreases events
  {
    if events != [] {
      var n := |events| - 1;
      FaultTripIsLatched(b, events[..n]);
      var c := After(b, events[..n]);
      FaultTripIgnoresButton(c, events[n].sample, events[n].status);
    }
    UnrequestedMotorIsOff(After(b, events));
  }

  /** Releasing the button restores power exactly when its press had been noticed. */
  lemma ReleaseRestartsIff(b: Board, s: Sample, st: Status)
    requires Inv(b) && !st.estop && b.tripped
    ensures Tick(b, s, st).pwr.requested <==> b.lastEstop
    ensures Tick(b, s, st).tripped <==> !b.lastEstop
  {
    BoardStepKeepsInv(b, 1, s);
    EmergencyOffKeepsInv(BoardStep(b, 1, s));
  }

  /** Wherever a noticed press came from, letting the button go clears the trip and asks for power. */
  lemma ReleaseRestarts(b: Board, s: Sample, st: Status)
    requires Inv(b) && !st.estop && b.lastEstop
    ensures var c := Tick(b, s, st); c.pwr.requested && !c.tripped && !c.lastEstop
  {
    BoardStepKeepsInv(b, 1, s);
    EmergencyOffKeepsInv(BoardStep(b, 1, s));
  }

  /** An operator reset makes the button work again after a fault: pressed and let go it restores the request. */
  lemma ResetThenButtonRestores(b: Board, s: Sample, press: Status, s': Sample, release: Status)
    requires Inv(b) && press.estop && !release.estop && !b.lastEstop
    ensures var c := Tick(Tick(OperatorReset(b), s, press), s', release); c.pwr.requested && !c.tripped
  {
    var c := OperatorReset(b);
    BoardStepKeepsInv(c, 1, s);
    PolicyKeepsInv(BoardStep(c, 1, s), press);
    PressIsNoticed(c, s, press);
    ReleaseRestarts(Tick(c, s, press), s', release);
  }

  lemma PressIsNoticed(b: Board, s: Sample, st: Status)
    requires Inv(b) && !b.tripped && st.estop
    ensures Tick(b, s, st).lastEstop && Tick(b, s, st).tripped
  {}

  // ---------- the brake resistor is released ----------

  function BrakeLeft(w: Pwr): nat {
    if !w.dbrFlag then 0 else if w.dbrCount > DBR_MS then 1 else 3002 - w.dbrCount
  }

  predicate Resting(b: Board) {
    b.pwr.cur == Off && !b.pwr.requested
  }

  lemma HandledBrake(b: Board)
    requires Resting(b) && b.pwr.last == Off
    ensures Resting(HandleStage(b)) && HandleStage(b).pre == b.pre
    ensures BrakeLeft(HandleStage(b).pwr) == 0 || BrakeLeft(HandleStage(b).pwr) < BrakeLeft(b.pwr)
    ensures b.pwr.dbrFlag && b.pre.busMv < 5000 ==> !HandleStage(b).pwr.dbrFlag && !HandleStage(b).pwr.dbr
    ensures HandleStage(b).pwr.dbr <==>
              b.pwr.dbr && (!b.pwr.dbrFlag || (b.pre.busMv >= 5000 && b.pwr.dbrCount <= 3000))
    ensures BrakeCounted(b.pwr, HandleStage(b).pwr, b.pre.busMv)
  {}

  /** A braking step is counted, and the end of braking clears the count for the next time. */
  predicate BrakeCounted(w: Pwr, x: Pwr, busMv: nat) {
    && (x.dbrFlag <==> w.dbrFlag && busMv >= 5000 && w.dbrCount <= 3000)
    && x.dbrCount == if !w.dbrFlag then w.dbrCount else if x.dbrFlag then w.dbrCount + 1 else 0
  }

  lemma RestingStep(b: Board, e: nat, s: Sample)
    requires Resting(b)
    ensures var c := BoardStep(b, e, s);
            && Resting(c)
            && (BrakeLeft(c.pwr) == 0 || BrakeLeft(c.pwr) < BrakeLeft(b.pwr))
            && (b.pwr.dbrFlag && c.pre.busMv < 5000 ==> !c.pwr.dbr)
            && (c.pwr.dbr <==> b.pwr.dbr && (!b.pwr.dbrFlag || (c.pre.busMv >= 5000 && b.pwr.dbrCount <= 3000)))
            && BrakeCounted(b.pwr, c.pwr, c.pre.busMv) && c.pre == Step(b.pre, e, s)
  {
    var h := b.(pre := Step(b.pre, e, s));
    var t := h.(pwr := h.pwr.(steadyMs := Add16(h.pwr.steadyMs, e)));
    var x := EnteredStage(t);
    assert Resting(x) && BrakeLeft(x.pwr) == BrakeLeft(b.pwr) && x.pwr.last == Off && x.pwr.dbrFlag == b.pwr.dbrFlag;
    assert x.pwr.dbr == b.pwr.dbr && x.pwr.dbrCount == b.pwr.dbrCount && x.pre == h.pre;
    HandledBrake(x);
  }

  lemma {:induction false} BrakeCountsDown(b: Board, ticks: seq<SoftStart.Tick>)
    requires Resting(b)
    ensures Resting(RunUp(b, ticks))
    ensures BrakeLeft(RunUp(b, ticks).pwr) == 0 || BrakeLeft(RunUp(b, ticks).pwr) + |ticks| <= BrakeLeft(b.pwr)
  {
    if ticks != [] {
      var n := |ticks| - 1;
      BrakeCountsDown(b, ticks[..n]);
      RestingStep(RunUp(b, ticks[..n]), ticks[n].e, ticks[n].sample);
    }
  }

  lemma {:induction false} RunUpKeepsInv(b: Board, ticks: seq<SoftStart.Tick>)
    requires Inv(b)
    ensures Inv(RunUp(b, ticks))
  {
    if ticks != [] {
      var n := |ticks| - 1;
      RunUpKeepsInv(b, ticks[..n]);
      BoardStepKeepsInv(RunUp(b, ticks[..n]), ticks[n].e, ticks[n].sample);
    }
  }

  lemma NoBrakeLeft(b: Board)
    ensures BrakeLeft(b.pwr) <= 3002
    ensures Inv(b) && BrakeLeft(b.pwr) == 0 ==> !b.pwr.dbr
  {}

  /** Every new sample of the run finds the bus at five volts or more. */
  predicate HighBus(ticks: seq<SoftStart.Tick>) {
    forall i :: 0 <= i < |ticks| && ticks[i].sample.updated ==> ticks[i].sample.busMv >= 5000
  }

  lemma StepTakesSample(p: Pre, e: nat, s: Sample)
    ensures Step(p, e, s).busMv == if s.updated then s.busMv else p.busMv
  {}

  /** On a bus that stays up the brake resistor is on for exactly 3001 steps, and ready for the next time. */
  lemma {:induction false} BrakeLastsExactly(b: Board, ticks: seq<SoftStart.Tick>)
    requires Resting(b) && b.pwr.dbr && b.pwr.dbrFlag && b.pwr.dbrCount == 0 && b.pre.busMv >= 5000 && HighBus(ticks)
    ensures var c := RunUp(b, ticks);
            && Resting(c) && c.pre.busMv >= 5000 && c.pwr.dbr == c.pwr.dbrFlag == (|ticks| <= 3001)
            && c.pwr.dbrCount == if |ticks| <= 3001 then |ticks| else 0
  {
    if ticks != [] {
      var n := |ticks| - 1;
      BrakeLastsExactly(b, ticks[..n]);
      RestingStep(RunUp(b, ticks[..n]), ticks[n].e, ticks[n].sample);
      StepTakesSample(RunUp(b, ticks[..n]).pre, ticks[n].e, ticks[n].sample);
    }
  }

  /** At rest the brake resistor is off after at most 3002 steps, whatever the bus voltage. */
  lemma BrakeIsReleased(b: Board, ticks: seq<SoftStart.Tick>)
    requires Inv(b) && Resting(b) && |ticks| >= 3002
    ensures !RunUp(b, ticks).pwr.dbr && Resting(RunUp(b, ticks))
  {
    BrakeCountsDown(b, ticks);
    RunUpKeepsInv(b, ticks);
    NoBrakeLeft(b);
    NoBrakeLeft(RunUp(b, ticks));
  }

  // ---------- power-up always ends ----------

  /** Step times are short enough that the 16-bit stage timer cannot wrap past its limits. */
  predicate Timely(b: Board) {
    && (b.pwr.cur == Aux && b.pwr.last == Aux ==> b.pwr.steadyMs < STEADY_MS)
    && (b.pwr.cur == Motor && b.pwr.last == Motor ==> b.pwr.steadyMs < HANDOVER_MS)
  }

  /** Steps still needed, at most, until the board is powered or has given up. */
  function Rank(b: Board): nat {
    var w := b.pwr;
    match w.cur
    case Off => if w.requested then 2384 else 0
    case Aux => 2332 + (if w.last == Aux then Left(50, w.steadyMs) else 51)
    case Precharging => if w.last == Precharging then 202 + SoftStart.Rank(b.pre) else 2332
    case Motor => if w.last == Motor then Left(200, w.steadyMs) else 201
    case Done => 0
  }

  lemma HandledAuxRank(b: Board)
    requires b.pwr.last == b.pwr.cur == Aux
    ensures Timely(HandleStage(b))
    ensures Rank(HandleStage(b)) == if b.pwr.steadyMs >= STEADY_MS then 2332 else 2332 + 50 - b.pwr.steadyMs
  {
  }

  lemma HandledMotorRank(b: Board)
    requires b.pwr.last == b.pwr.cur == Motor
    ensures Timely(HandleStage(b))
    ensures Rank(HandleStage(b)) <= if b.pwr.steadyMs >= HANDOVER_MS then 0 else 200 - b.pwr.steadyMs
  {}

  lemma HandledPrechargingRank(b: Board)
    requires HalfStepped(b) && b.pwr.last == b.pwr.cur == Precharging
    ensures Timely(HandleStage(b))
    ensures if b.pre.done || b.pre.cur == Fault then Rank(HandleStage(b)) <= 201 else HandleStage(b) == b
  {}

  lemma HandledOffRank(b: Board)
    requires b.pwr.last == b.pwr.cur == Off
    ensures Timely(HandleStage(b))
    ensures Rank(HandleStage(b)) == if b.pwr.requested then 2383 else 0
  {
  }

  /** The sequence outside the soft start: every step of at most a minute counts. */
  lemma PowerStepProgresses(b: Board, e: nat)
    requires HalfStepped(b) && Timely(b) && 1 <= e <= 60000
    requires !(b.pwr.cur == b.pwr.last == Precharging)
    ensures Timely(PowerStep(b, e))
    ensures if Rank(b) == 0 then Rank(PowerStep(b, e)) == 0 else Rank(PowerStep(b, e)) < Rank(b)
  {
    var t := b.(pwr := b.pwr.(steadyMs := Add16(b.pwr.steadyMs, e)));
    var x := EnteredStage(t);
    EnteredHalf(t);
    match b.pwr.cur
    case Off => HandledOffRank(x);
    case Aux => HandledAuxRank(x);
    case Precharging => HandledPrechargingRank(x);
    case Motor => HandledMotorRank(x);
    case Done =>
  }

  lemma PrechargeStepProgresses(b: Board, e: nat, s: Sample)
    requires Inv(b) && e >= 1 && b.pwr.cur == b.pwr.last == Precharging
    ensures Timely(BoardStep(b, e, s)) && Rank(BoardStep(b, e, s)) < Rank(b)
  {
    SoftStartHalf(b, e, s);
    StepProgresses(b.pre, e, s);
    var t := b.(pre := Step(b.pre, e, s), pwr := b.pwr.(steadyMs := Add16(b.pwr.steadyMs, e)));
    HandledPrechargingRank(t);
  }

  lemma SampleKeepsRank(b: Board, e: nat, s: Sample)
    requires b.pwr.cur != Precharging || b.pwr.last != Precharging
    ensures Rank(b.(pre := Step(b.pre, e, s))) == Rank(b)
  {}

  lemma BoardStepProgresses(b: Board, e: nat, s: Sample)
    requires Inv(b) && Timely(b) && 1 <= e <= 60000
    ensures Timely(BoardStep(b, e, s))
    ensures if Rank(b) == 0 then Rank(BoardStep(b, e, s)) == 0 else Rank(BoardStep(b, e, s)) < Rank(b)
  {
    if b.pwr.cur == b.pwr.last == Precharging {
      PrechargeStepProgresses(b, e, s);
    } else {
      SoftStartHalf(b, e, s);
      SampleKeepsRank(b, e, s);
      PowerStepProgresses(b.(pre := Step(b.pre, e, s)), e);
    }
  }

  function RunUp(b: Board, ticks: seq<SoftStart.Tick>): Board {
    if ticks == [] then b
    else BoardStep(RunUp(b, ticks[..|ticks| - 1]), ticks[|ticks| - 1].e, ticks[|ticks| - 1].sample)
  }

  lemma {:induction false} RunUpProgresses(b: Board, ticks: seq<SoftStart.Tick>)
    requires Inv(b) && Timely(b)
    requires forall i :: 0 <= i < |ticks| ==> 1 <= ticks[i].e <= 60000
    ensures Inv(RunUp(b, ticks)) && Timely(RunUp(b, ticks))
    ensures Rank(RunUp(b, ticks)) == 0 || Rank(RunUp(b, ticks)) + |ticks| <= Rank(b)
  {
    if ticks != [] {
      var n := |ticks| - 1;
      RunUpProgresses(b, ticks[..n]);
      BoardStepKeepsInv(RunUp(b, ticks[..n]), ticks[n].e, ticks[n].sample);
      BoardStepProgresses(RunUp(b, ticks[..n]), ticks[n].e, ticks[n].sample);
    }
  }

  lemma RankBounded(b: Board)
    requires SoftStart.Inv(b.pre)
    ensures Rank(b) <= 2384
  {
    SoftStartRankBounded(b.pre);
  }

  lemma SoftStartRankBounded(p: Pre)
    ensures SoftStart.Rank(p) <= 2129
  {}

  /** Powered with the charging output off, or back at rest with nothing requested. */
  predicate Settled(b: Board) {
    || (b.pwr.cur == Done && b.pwr.motor && !b.pre.chgEn)
    || (b.pwr.cur == Off && !b.pwr.requested && !b.pwr.motor)
  }

  lemma NoRankIsSettled(b: Board)
    requires Inv(b) && Rank(b) == 0
    ensures Settled(b)
  {}

  /** Without an emergency, 2384 steps of any inputs are enough: the board is powered, or it has given up. */
  lemma PowerUpEnds(b: Board, ticks: seq<SoftStart.Tick>)
    requires Inv(b) && Timely(b) && |ticks| >= 2384
    requires forall i :: 0 <= i < |ticks| ==> 1 <= ticks[i].e <= 60000
    ensures Settled(RunUp(b, ticks))
  {
    RunUpProgresses(b, ticks);
    RankBounded(b);
    NoRankIsSettled(RunUp(b, ticks));
  }

  lemma PolicyIsTimely(b: Board, st: Status)
    requires Timely(b)
    ensures Timely(Policy(b, st))
  {}

  /** The board's own milliseconds never let a stage timer pass its limit. */
  lemma {:induction false} LifeIsTimely(autoStart: bool, events: seq<Event>)
    ensures Timely(Life(autoStart, events))
  {
    if events != [] {
      var n := |events| - 1;
      var b := Life(autoStart, events[..n]);
      LifeIsTimely(autoStart, events[..n]);
      LifeKeepsInv(autoStart, events[..n]);
      if events[n].Millisecond? {
        BoardStepProgresses(b, 1, events[n].sample);
        PolicyIsTimely(BoardStep(b, 1, events[n].sample), events[n].status);
      }
    }
  }

  /** Wherever a life has led, 2384 steps without an emergency settle the board. */
  lemma EveryLifeSettles(autoStart: bool, events: seq<Event>, ticks: seq<SoftStart.Tick>)
    requires |ticks| >= 2384 && forall i :: 0 <= i < |ticks| ==> 1 <= ticks[i].e <= 60000
    ensures Settled(RunUp(Life(autoStart, events), ticks))
  {
    LifeKeepsInv(autoStart, events);
    LifeIsTimely(autoStart, events);
    PowerUpEnds(Life(autoStart, events), ticks);
  }

  // ---------- a sound supply powers up ----------

  /** Steps short enough, each with a fresh bus reading of a volt at least and no over-current. */
  predicate SoundTicks(ticks: seq<SoftStart.Tick>) {
    forall i :: 0 <= i < |ticks| ==>
      && 1 <= ticks[i].e <= 60000
      && ticks[i].sample.updated && ticks[i].sample.busMv >= 1000 && !ticks[i].sample.ocp
  }

  predicate NoFailureAhead(p: Pre) {
    p.cur !in {OcpRecover, Fault}
  }

  lemma SoundStep(p: Pre, e: nat, s: Sample)
    requires SoftStart.Inv(p) && NoFailureAhead(p) && s.updated && s.busMv >= 1000 && !s.ocp
    ensures NoFailureAhead(Step(p, e, s))
  {}

  lemma SoundSequence(b: Board, e: nat)
    requires HalfStepped(b) && NoFailureAhead(b.pre) && b.pwr.requested
    ensures NoFailureAhead(PowerStep(b, e).pre) && PowerStep(b, e).pwr.requested
  {
    var t := b.(pwr := b.pwr.(steadyMs := Add16(b.pwr.steadyMs, e)));
    EnteredHalf(t);
    var x := EnteredStage(t);
    assert NoFailureAhead(x.pre) && x.pwr.requested;
    SoundHandled(x);
  }

  lemma SoundHandled(b: Board)
    requires HalfStepped(b) && NoFailureAhead(b.pre) && b.pwr.requested
    ensures NoFailureAhead(HandleStage(b).pre) && HandleStage(b).pwr.requested
  {}

  lemma {:induction false} SoundRun(b: Board, ticks: seq<SoftStart.Tick>)
    requires Inv(b) && b.pwr.requested && NoFailureAhead(b.pre) && SoundTicks(ticks)
    ensures NoFailureAhead(RunUp(b, ticks).pre) && RunUp(b, ticks).pwr.requested
  {
    if ticks != [] {
      var n := |ticks| - 1;
      SoundRun(b, ticks[..n]);
      RunUpKeepsInv(b, ticks[..n]);
      var c := RunUp(b, ticks[..n]);
      SoundStep(c.pre, ticks[n].e, ticks[n].sample);
      SoftStartHalf(c, ticks[n].e, ticks[n].sample);
      SoundSequence(c.(pre := Step(c.pre, ticks[n].e, ticks[n].sample)), ticks[n].e);
    }
  }

  /** Asked to, with a bus that answers and no over-current, the board is powered after 2384 steps. */
  lemma SoundSupplyPowersUp(b: Board, ticks: seq<SoftStart.Tick>)
    requires Inv(b) && Timely(b) && b.pwr.requested && NoFailureAhead(b.pre)
    requires |ticks| >= 2384 && SoundTicks(ticks)
    ensures RunUp(b, ticks).pwr.cur == Done && RunUp(b, ticks).pwr.motor
  {
    SoundRun(b, ticks);
    PowerUpEnds(b, ticks);
  }

  // ---------- the exception to the emergency stop is met ----------

  const DEAD: Sample := Sample(true, 0, 0, false)
  const FINE: Status := Status(false, true, true, false)

  /** n milliseconds in which nothing is wrong but the voltages. */
  function DeadBus(n: nat): seq<Event> {
    if n == 0 then [] else DeadBus(n - 1) + [Millisecond(DEAD, FINE)]
  }

  /** Powering up on a dead bus, and not given up yet. */
  predicate Hopeful(b: Board) {
    && b.pwr.requested && b.pwr.cur in {Off, Aux, Precharging} && !b.tripped && !b.lastEstop
    && b.pre.cur !in {Steady, OcpRecover, Fault}
  }

  lemma DeadSoftStart(b: Board)
    requires SoftStart.Inv(b.pre) && b.pre.cur !in {Steady, OcpRecover, Fault} && !NoLoadNow(b, DEAD)
    ensures Step(b.pre, 1, DEAD).cur !in {Steady, OcpRecover, Fault}
  {}

  lemma HopefulSequence(b: Board)
    requires HalfStepped(b) && Hopeful(b)
    ensures Hopeful(PowerStep(b, 1)) && PowerStep(b, 1).pwr.cur != Done
  {
    var t := b.(pwr := b.pwr.(steadyMs := Add16(b.pwr.steadyMs, 1)));
    var x := EnteredStage(t);
    EnteredHalf(t);
    assert Hopeful(x);
    HopefulHandled(x);
  }

  lemma HopefulHandled(b: Board)
    requires HalfStepped(b) && Hopeful(b)
    ensures Hopeful(HandleStage(b))
  {}

  lemma HopefulTick(b: Board)
    requires Inv(b) && Timely(b) && Hopeful(b) && !NoLoadNow(b, DEAD)
    ensures Hopeful(Tick(b, DEAD, FINE)) && Rank(Tick(b, DEAD, FINE)) < Rank(b)
  {
    DeadSoftStart(b);
    SoftStartHalf(b, 1, DEAD);
    HopefulSequence(b.(pre := Step(b.pre, 1, DEAD)));
    BoardStepProgresses(b, 1, DEAD);
    assert Tick(b, DEAD, FINE) == BoardStep(b, 1, DEAD);
  }

  function Starved(n: nat): Board {
    Life(true, DeadBus(n))
  }

  lemma StarvedNext(n: nat)
    ensures Starved(n + 1) == Tick(Starved(n), DEAD, FINE)
  {
    assert DeadBus(n + 1) == DeadBus(n) + [Millisecond(DEAD, FINE)];
    LifeNext(true, DeadBus(n), Millisecond(DEAD, FINE));
  }

  lemma LifeNext(autoStart: bool, events: seq<Event>, e: Event)
    ensures Life(autoStart, events + [e]) == Next(Life(autoStart, events), e)
  {
    assert (events + [e])[..|events + [e]| - 1] == events;
  }

  predicate Keeping(b: Board, n: nat) {
    Hopeful(b) && Rank(b) + n <= 2384
  }

  lemma KeepingAtFirst()
    ensures Keeping(Starved(0), 0)
  {}

  lemma KeepingTick(b: Board, n: nat)
    requires Inv(b) && Timely(b) && Keeping(b, n) && !NoLoadNow(b, DEAD)
    ensures Keeping(Tick(b, DEAD, FINE), n + 1)
  {
    HopefulTick(b);
  }

  lemma KeepingNext(n: nat)
    requires Keeping(Starved(n), n) && !NoLoadNow(Starved(n), DEAD)
    ensures Keeping(Starved(n + 1), n + 1)
  {
    LifeKeepsInv(true, DeadBus(n));
    LifeIsTimely(true, DeadBus(n));
    KeepingTick(Starved(n), n);
    StarvedNext(n);
  }

  /** What holds at first and lasts until something else happens lasts for ever unless that happens. */
  lemma {:induction false} LastsUnless(holds: nat -> bool, happens: nat -> bool, n: nat)
    requires holds(0) && forall k: nat :: holds(k) && !happens(k) ==> holds(k + 1)
    ensures holds(n) || exists k: nat :: happens(k)
  {
    if n > 0 {
      LastsUnless(holds, happens, n - 1);
    }
  }

  lemma HopeRunsOut()
    ensures exists n: nat :: NoLoadNow(Starved(n), DEAD)
  {
    var hope: nat -> bool := (n: nat) => Keeping(Starved(n), n);
    var end: nat -> bool := (n: nat) => NoLoadNow(Starved(n), DEAD);
    KeepingAtFirst();
    forall k: nat | hope(k) && !end(k) ensures hope(k + 1) {
      KeepingNext(k);
    }
    LastsUnless(hope, end, 2385);
    NoHopeLeft(Starved(2385));
    var n: nat :| end(n);
    assert NoLoadNow(Starved(n), DEAD);
  }

  lemma NoHopeLeft(b: Board)
    ensures !Keeping(b, 2385)
  {}

  /** From switch-on a board with a dead bus reaches that millisecond: a press in it leaves the charging output on. */
  lemma NoLoadHappens(st: Status)
    requires st.estop
    ensures exists n: nat :: NoLoadNow(Starved(n), DEAD) && Tick(Starved(n), DEAD, st).pre.chgEn
  {
    HopeRunsOut();
    var n: nat :| NoLoadNow(Starved(n), DEAD);
    LifeKeepsInv(true, DeadBus(n));
    EstopCutsPower(Starved(n), DEAD, st);
  }
}

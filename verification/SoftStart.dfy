/**
  The motor rail's pre-charge: a nine-state soft start that drives the charging half-bridge.

  The state machine framework runs the entry action of a state lazily, at the first step taken in that
  state: last is the state whose entry has already run.
*/
module SoftStart {
  import opened Bytes
  import opened Timers

  datatype Phase = Idle | EnClear | Prebias | RampTon | RampFreq | RampDuty | Steady | OcpRecover | Fault

  datatype Failure = NoFailure | ShortCircuit | NoLoad

  datatype Pre = Pre(
    cur: Phase, last: Phase, phaseMs: nat, retry: nat, seed: nat,
    failure: Failure, startRequested: bool, done: bool, busMv: nat, vinMv: nat,
    chgEn: bool, duty: nat, freq: nat)

  /** What one step reads: an ADC snapshot, if there is a new one, and the over-current flag. */
  datatype Sample = Sample(updated: bool, busMv: nat, vinMv: nat, ocp: bool)

  const EN_CLEAR_MS: nat := 20
  const PHASE2_MS: nat := 25
  const PHASE3_MS: nat := 25
  const PHASE4_MS: nat := 450
  const NO_LOAD_CHECK_MS: nat := 50
  const NO_LOAD_MV: nat := 1000
  const OCP_RECOVER_MS: nat := 10
  const OCP_RETRY_MAX: nat := 3
  const FREQ_LOW: nat := 50000
  const FREQ_HIGH: nat := 600000
  const DUTY_FULL: nat := 900

  const POWER_UP := Pre(Idle, Idle, 0, 0, 0, NoFailure, false, false, 0, 0, false, 0, 0)

  // ---------- ramps ----------

  /** Per-mille progress through a phase. */
  function Progress(t: nat, duration: nat): nat {
    if duration == 0 then 1000 else (if t > duration then duration else t) * 1000 / duration
  }

  function Duty2(t: nat): nat { 8 * Progress(t, 25) / 1000 }
  function Duty3(t: nat): nat { 8 + 92 * Progress(t, 25) / 1000 }
  function Freq3(t: nat): nat { 50000 + 550000 * Progress(t, 25) / 1000 }
  function Duty4(t: nat): nat { 100 + 800 * Progress(t, 450) / 1000 }

  /** Virtual time into phase four at which a warm start with the given duty enters it. */
  function WarmSeed(duty: nat): nat
    requires 100 <= duty
  {
    (duty - 100) * 450 / 800
  }

  // ---------- the state machine ----------

  function Enter(p: Pre): Pre {
    var q := p.(phaseMs := 0, last := p.cur);
    match p.cur
    case Idle => q.(chgEn := false, duty := 0)
    case EnClear => q.(chgEn := false, duty := 0)
    case Prebias => q.(chgEn := false, duty := 0)
    case RampTon => q.(chgEn := true, freq := FREQ_LOW, duty := 0)
    case RampFreq => q
    case RampDuty => q.(chgEn := true, freq := FREQ_HIGH, phaseMs := p.seed)
    case Steady => q.(freq := FREQ_HIGH, duty := DUTY_FULL, done := true)
    case OcpRecover => q.(chgEn := false, duty := 0)
    case Fault => q.(chgEn := false, duty := 0)
  }

  function Entered(p: Pre): Pre {
    if p.last != p.cur then Enter(p) else p
  }

  function Clamp(x: nat): nat {
    if x < 100 then 100 else if x > 900 then 900 else x
  }

  /** Bus voltage over supply, per mille, in 32-bit arithmetic. */
  function Ratio(p: Pre): nat
    requires p.vinMv > 0
  {
    Wrap32(p.busMv * 1000) / p.vinMv
  }

  function ChooseStart(p: Pre): Pre {
    if p.vinMv == 0 || Ratio(p) < 100 then p.(cur := RampTon)
    else if Ratio(p) >= 950 then p.(cur := Steady)
    else p.(cur := RampDuty, seed := WarmSeed(Clamp(Ratio(p))))
  }

  function Handle(p: Pre, e: nat): Pre {
    var t := p.phaseMs + e;
    match p.cur
    case Idle =>
      if p.startRequested
      then p.(cur := EnClear, startRequested := false, retry := 0, failure := NoFailure, done := false) else p
    case EnClear => p.(phaseMs := t, cur := if t >= EN_CLEAR_MS then Prebias else EnClear)
    case Prebias => ChooseStart(p)
    case RampTon => p.(phaseMs := t, duty := Duty2(t), cur := if t >= PHASE2_MS then RampFreq else RampTon)
    case RampFreq =>
      p.(phaseMs := t, freq := Freq3(t), duty := Duty3(t), cur := if t >= PHASE3_MS then RampDuty else RampFreq)
    case RampDuty =>
      var q := p.(phaseMs := t, duty := Duty4(t));
      if t >= NO_LOAD_CHECK_MS && p.busMv < NO_LOAD_MV then q.(failure := NoLoad, cur := Fault)
      else q.(cur := if t >= PHASE4_MS then Steady else RampDuty)
    case Steady => p
    case OcpRecover =>
      if t < OCP_RECOVER_MS then p.(phaseMs := t)
      else if p.retry < OCP_RETRY_MAX then p.(phaseMs := t, retry := p.retry + 1, cur := EnClear)
      else p.(phaseMs := t, failure := ShortCircuit, cur := Fault)
    case Fault => p
  }

  function FsmStep(p: Pre, e: nat): Pre {
    Handle(Entered(p), e)
  }

  predicate OcpWatched(phase: Phase) {
    phase in {EnClear, RampTon, RampFreq, RampDuty}
  }

  function Sampled(p: Pre, s: Sample): Pre {
    var q := if s.updated then p.(busMv := s.busMv, vinMv := s.vinMv) else p;
    if OcpWatched(p.cur) && s.ocp then q.(last := p.cur, cur := OcpRecover) else q
  }

  function Step(p: Pre, e: nat, s: Sample): Pre {
    FsmStep(Sampled(p, s), e)
  }

  /** Outputs off at once; whatever entry was pending is forgotten. */
  function Reset(p: Pre): Pre {
    p.(startRequested := false, retry := 0, failure := NoFailure, done := false, seed := 0,
       chgEn := false, duty := 0, last := p.cur, cur := Idle)
  }

  function Begin(p: Pre): Pre {
    Reset(p).(startRequested := true, done := false)
  }

  // ---------- what every run keeps ----------

  /** The output is driven only in the ramps, and for the one step before a stop state's entry runs. */
  predicate Inv(p: Pre) {
    && p.retry <= OCP_RETRY_MAX
    && (p.failure != NoFailure <==> p.cur == Fault)
    && (p.done <==> p.cur == Steady && p.last == Steady)
    && (p.startRequested ==> p.cur == Idle)
    && (p.chgEn ==>
          || p.cur in {RampFreq, RampDuty, Steady}
          || (p.cur == RampTon && p.last == RampTon)
          || (p.cur == Fault && p.last == RampDuty && p.failure == NoLoad))
    && (p.cur in {Idle, EnClear, Prebias} ==> !p.chgEn)
    && (p.cur == RampTon && p.last == RampTon ==> p.chgEn)
    && (p.cur == RampFreq ==> p.chgEn && p.last in {RampTon, RampFreq})
    && (p.cur == RampDuty && p.last == RampDuty ==> p.chgEn)
    && (p.cur == RampDuty ==> p.last in {Prebias, RampFreq, RampDuty})
    && (p.cur == Steady ==> p.last in {Prebias, RampDuty, Steady})
    && (p.cur == Fault ==> p.last in {RampDuty, OcpRecover, Fault})
    && (p.cur == OcpRecover ==> p.last == OcpRecover)
  }

  predicate Tripped(p: Pre) {
    && p.cur == OcpRecover && OcpWatched(p.last)
    && p.retry <= OCP_RETRY_MAX && p.failure == NoFailure && !p.done && !p.startRequested
  }

  lemma SampledInv(p: Pre, s: Sample)
    requires Inv(p)
    ensures Inv(Sampled(p, s)) || Tripped(Sampled(p, s))
  {}

  lemma EnteredInv(p: Pre)
    requires Inv(p) || Tripped(p)
    ensures Inv(Entered(p)) && Entered(p).last == Entered(p).cur == p.cur
  {}

  lemma HandledInv(p: Pre, e: nat)
    requires Inv(p) && p.last == p.cur
    ensures Inv(Handle(p, e))
  {
    if p.cur == Prebias && p.vinMv > 0 {
      assert Inv(ChooseStart(p));
    }
  }

  lemma StepKeepsInv(p: Pre, e: nat, s: Sample)
    requires Inv(p)
    ensures Inv(Step(p, e, s))
  {
    SampledInv(p, s);
    EnteredInv(Sampled(p, s));
    HandledInv(Entered(Sampled(p, s)), e);
  }

  lemma ResetKeepsInv(p: Pre)
    requires Inv(p)
    ensures Inv(Reset(p)) && Inv(Begin(p))
  {}

  /** Over-current in a watched phase switches the output off within the same step. */
  lemma OcpCutsCharge(p: Pre, e: nat, s: Sample)
    requires Inv(p) && OcpWatched(p.cur) && s.ocp
    ensures var q := Step(p, e, s); !q.chgEn && q.duty == 0 && q.cur in {OcpRecover, EnClear, Fault}
  {
    var q := Sampled(p, s);
    assert Entered(q) == Enter(q);
  }

  /** In the steady state, with the output on, over-current is not looked at. */
  lemma SteadyIgnoresOcp(p: Pre, e: nat, s: Sample)
    requires p.cur == Steady
    ensures Step(p, e, s) == Step(p, e, s.(ocp := false))
  {}

  /** After a step that sees over-current the output is on exactly if it was and the steady state had been reached. */
  lemma OcpLeavesChargeIff(p: Pre, e: nat, s: Sample)
    requires Inv(p) && s.ocp
    ensures Step(p, e, s).chgEn <==> p.cur == Steady && p.chgEn
  {}

  // ---------- where a start begins, and how often it is tried again ----------

  /**
    The bus decides where a start begins: below a tenth of the supply, or without a supply, from the bottom;
    from there up to 95 percent at the duty the bus already stands for, at most 90 percent and at most three
    per mille below it; above that in the steady state.
  */
  lemma StartFollowsTheBus(p: Pre, e: nat, s: Sample)
    requires p.cur == Prebias && s.updated && s.busMv * 1000 < 0x1_0000_0000
    ensures var q := Step(p, e, s);
            if s.vinMv == 0 then q.cur == RampTon
            else
              var d := s.busMv * 1000 / s.vinMv;
              var top := if d > 900 then 900 else d;
              if d < 100 then q.cur == RampTon
              else if d < 950 then q.cur == RampDuty && top - 3 <= Duty4(q.seed) <= top
              else q.cur == Steady
  {
    if s.vinMv > 0 {
      var d := s.busMv * 1000 / s.vinMv;
      var q := Sampled(p, s);
      assert Ratio(Entered(q)) == d;
      if 100 <= d < 950 {
        WarmSeedIsClose(if d > 900 then 900 else d);
      }
    }
  }

  /** After its ten milliseconds off a trip is tried again, three times; the fourth is a short circuit. */
  lemma RecoveryEnds(p: Pre, e: nat, s: Sample)
    requires p.cur == p.last == OcpRecover
    ensures var q := Step(p, e, s);
            if p.phaseMs + e < 10 then q.cur == OcpRecover && q.retry == p.retry
            else if p.retry < 3 then q.cur == EnClear && q.retry == p.retry + 1
            else q.cur == Fault && q.failure == ShortCircuit
  {}

  /** The duty ramp gives up after 50 ms without a volt on the bus, and is steady after 450 ms. */
  lemma DutyRampEnds(p: Pre, e: nat, s: Sample)
    requires p.cur == p.last == RampDuty && !s.ocp
    ensures var q, t := Step(p, e, s), p.phaseMs + e;
            var busMv := if s.updated then s.busMv else p.busMv;
            if t >= 50 && busMv < 1000 then q.cur == Fault && q.failure == NoLoad
            else q.cur == if t >= 450 then Steady else RampDuty
  {}

  // ---------- the soft start always ends ----------

  function Elapsed(p: Pre): nat {
    if p.last == p.cur then p.phaseMs else if p.cur == RampDuty then p.seed else 0
  }

  /** One attempt takes at most 20 + 1 + 25 + 25 + 450 steps, one more to settle and 10 to recover. */
  function Retries(p: Pre): nat {
    if p.retry >= 3 then 0 else 532 * (3 - p.retry)
  }

  /** Steps still needed, at most, before the soft start is settled. */
  function Rank(p: Pre): nat {
    match p.cur
    case Idle => if p.startRequested then 2129 else 0
    case EnClear => Left(20, Elapsed(p)) + 512 + Retries(p)
    case Prebias => 512 + Retries(p)
    case RampTon => Left(25, Elapsed(p)) + 486 + Retries(p)
    case RampFreq => Left(25, Elapsed(p)) + 461 + Retries(p)
    case RampDuty => Left(450, Elapsed(p)) + 11 + Retries(p)
    case Steady => if p.last == Steady then 0 else 1
    case OcpRecover => Left(10, Elapsed(p)) + Retries(p)
    case Fault => 0
  }

  lemma SampledRank(p: Pre, s: Sample)
    requires Inv(p)
    ensures Rank(Sampled(p, s)) <= Rank(p)
  {}

  lemma EnteredRank(p: Pre)
    requires Inv(p) || Tripped(p)
    ensures Rank(Entered(p)) <= Rank(p)
    ensures Rank(Entered(p)) == Rank(p) || (p.cur == Steady && Rank(Entered(p)) == 0 && Rank(p) == 1)
  {}

  lemma HandledRank(p: Pre, e: nat)
    requires Inv(p) && p.last == p.cur && e >= 1
    ensures if Rank(p) == 0 then Rank(Handle(p, e)) == 0 else Rank(Handle(p, e)) < Rank(p)
  {}

  /** Whatever the inputs, every step of at least a millisecond brings the end nearer. */
  lemma StepProgresses(p: Pre, e: nat, s: Sample)
    requires Inv(p) && e >= 1
    ensures if Rank(p) == 0 then Rank(Step(p, e, s)) == 0 else Rank(Step(p, e, s)) < Rank(p)
  {
    var q := Sampled(p, s);
    SampledInv(p, s);
    SampledRank(p, s);
    EnteredInv(q);
    EnteredRank(q);
    HandledRank(Entered(q), e);
  }

  datatype Tick = Tick(e: nat, sample: Sample)

  function Run(p: Pre, ticks: seq<Tick>): Pre {
    if ticks == [] then p else Step(Run(p, ticks[..|ticks| - 1]), ticks[|ticks| - 1].e, ticks[|ticks| - 1].sample)
  }

  lemma {:induction false} RunProgresses(p: Pre, ticks: seq<Tick>)
    requires Inv(p) && forall i :: 0 <= i < |ticks| ==> ticks[i].e >= 1
    ensures Inv(Run(p, ticks))
    ensures Rank(Run(p, ticks)) == 0 || Rank(Run(p, ticks)) + |ticks| <= Rank(p)
  {
    if ticks != [] {
      var n := |ticks| - 1;
      RunProgresses(p, ticks[..n]);
      var q := Run(p, ticks[..n]);
      StepKeepsInv(q, ticks[n].e, ticks[n].sample);
      StepProgresses(q, ticks[n].e, ticks[n].sample);
    }
  }

  predicate Started(p: Pre) {
    p.cur != Idle || p.startRequested
  }

  lemma HandledStarted(p: Pre, e: nat)
    requires Started(p)
    ensures Started(Handle(p, e))
  {}

  lemma StepStarted(p: Pre, e: nat, s: Sample)
    requires Started(p)
    ensures Started(Step(p, e, s))
  {
    HandledStarted(Entered(Sampled(p, s)), e);
  }

  lemma {:induction false} RunStarted(p: Pre, ticks: seq<Tick>)
    requires Started(p)
    ensures Started(Run(p, ticks))
  {
    if ticks != [] {
      var n := |ticks| - 1;
      RunStarted(p, ticks[..n]);
      StepStarted(Run(p, ticks[..n]), ticks[n].e, ticks[n].sample);
    }
  }

  /**
    From the start request, 2129 steps of any length, voltages and over-current are enough: the soft
    start is in its steady state, done, or in its fault state with a reason.
  */
  lemma SoftStartEnds(p: Pre, ticks: seq<Tick>)
    requires Inv(p) && |ticks| >= 2129 && forall i :: 0 <= i < |ticks| ==> ticks[i].e >= 1
    ensures var q := Run(Begin(p), ticks);
            && q.retry <= OCP_RETRY_MAX
            && (|| (q.cur == Steady && q.done && q.failure == NoFailure)
                || (q.cur == Fault && q.failure != NoFailure && !q.done))
  {
    ResetKeepsInv(p);
    RunProgresses(Begin(p), ticks);
    RunStarted(Begin(p), ticks);
  }

  // ---------- ramp arithmetic ----------

  lemma ProgressMonotone(t: nat, u: nat, duration: nat)
    requires t <= u && duration in {25, 450}
    ensures Progress(t, duration) <= Progress(u, duration) <= 1000
  {}

  lemma DutiesAreGradual(t: nat)
    ensures Duty2(t) <= Duty2(t + 1) <= Duty2(t) + 4 && Duty2(t) <= 8
    ensures Duty3(t) <= Duty3(t + 1) <= Duty3(t) + 4 && 8 <= Duty3(t) <= 100
    ensures Duty4(t) <= Duty4(t + 1) <= Duty4(t) + 4 && 100 <= Duty4(t) <= 900
    ensures 50000 <= Freq3(t) <= Freq3(t + 1) <= 600000
  {
    ProgressMonotone(t, t + 1, 25);
    ProgressMonotone(t, t + 1, 450);
  }

  lemma DutiesMeet(t: nat)
    ensures Duty2(0) == 0 && Duty3(1) <= 12 && Duty4(1) <= 104
    ensures t >= 25 ==> Duty2(t) == 8 && Duty3(t) == 100 && Freq3(t) == 600000
    ensures t >= 450 ==> Duty4(t) == 900
  {}

  /** A warm start resumes the ramp at most three per mille below the duty the bus already stands for. */
  lemma WarmSeedIsClose(duty: nat)
    requires 100 <= duty <= 900
    ensures duty - 3 <= Duty4(WarmSeed(duty)) <= duty
  {}

  /** The outputs are those of the phase and its elapsed time. */
  predicate OnRamp(p: Pre) {
    && p.duty <= 900 && p.freq <= 600000 && (p.chgEn ==> 50000 <= p.freq)
    && (p.cur == RampTon ==>
          if p.last == RampTon then p.freq == FREQ_LOW && p.duty == Duty2(p.phaseMs) else p.duty == 0)
    && (p.cur == RampFreq ==>
          if p.last == RampFreq then p.freq == Freq3(p.phaseMs) && p.duty == Duty3(p.phaseMs)
          else p.freq == FREQ_LOW && p.duty == 8)
    && (p.cur == RampDuty && p.last == RampDuty ==> p.freq == FREQ_HIGH && p.duty == Duty4(p.phaseMs))
    && (p.cur == RampDuty && p.last == RampFreq ==> p.freq == FREQ_HIGH && p.duty == 100)
    && (p.cur == RampDuty && p.last == Prebias ==> p.duty == 0)
    && (p.cur == Steady && p.last == RampDuty ==> p.freq == FREQ_HIGH && p.duty == DUTY_FULL)
    && (p.cur == Steady && p.last == Steady ==> p.freq == FREQ_HIGH && p.duty == DUTY_FULL)
    && (p.cur in {EnClear, Prebias} && p.last == p.cur ==> p.duty == 0)
    && (p.cur == Prebias ==> p.duty == 0)
    && (!p.chgEn && p.cur != Steady ==> p.duty == 0)
  }

  /** The ramps are straight lines, in whole per mille and hertz, and flat behind their ends. */
  lemma RampsAreLinear(t: nat)
    ensures Duty2(t) == (if t < 25 then 8 * t / 25 else 8)
    ensures Duty3(t) == 8 + (if t < 25 then 92 * t / 25 else 92)
    ensures Freq3(t) == 50000 + (if t < 25 then 22000 * t else 550000)
    ensures t < 450 ==> 100 + 16 * t / 9 - 1 <= Duty4(t) <= 100 + 16 * t / 9
    ensures t >= 450 ==> Duty4(t) == 900
  {
    assert t < 25 ==> Progress(t, 25) == 40 * t;
    assert t >= 25 ==> Progress(t, 25) == 1000;
    assert t >= 450 ==> Progress(t, 450) == 1000;
    if t < 450 {
      var x := Progress(t, 450);
      assert 450 * x <= 1000 * t < 450 * x + 450;
      assert 1000 * (800 * x / 1000) <= 800 * x < 1000 * (800 * x / 1000) + 1000;
      assert 9 * (16 * t / 9) <= 16 * t < 9 * (16 * t / 9) + 9;
    }
  }

  lemma SampledOnRamp(p: Pre, s: Sample)
    requires Inv(p) && OnRamp(p)
    ensures OnRamp(Sampled(p, s))
  {}

  lemma EnteredOnRamp(p: Pre)
    requires (Inv(p) || Tripped(p)) && OnRamp(p)
    ensures p.cur != RampDuty ==> OnRamp(Entered(p))
    ensures p.cur == RampDuty ==> Entered(p).freq == FREQ_HIGH && Entered(p).duty == p.duty
  {}

  lemma ChoiceOnRamp(p: Pre)
    requires p.cur == p.last == Prebias && OnRamp(p)
    ensures OnRamp(ChooseStart(p))
  {}

  lemma RampedOnRamp(p: Pre, e: nat)
    requires p.last == p.cur && p.cur in {RampTon, RampFreq, RampDuty} && p.chgEn
    requires p.cur == RampDuty ==> p.freq == FREQ_HIGH
    requires p.cur == RampTon ==> p.freq == FREQ_LOW
    ensures OnRamp(Handle(p, e))
  {
    var t := p.phaseMs + e;
    DutiesAreGradual(t);
    DutiesMeet(t);
  }

  lemma HandledOnRamp(p: Pre, e: nat)
    requires Inv(p) && p.last == p.cur
    requires if p.cur == RampDuty then p.freq == FREQ_HIGH else OnRamp(p)
    ensures OnRamp(Handle(p, e))
  {
    if p.cur == Prebias {
      ChoiceOnRamp(p);
    } else if p.cur in {RampTon, RampFreq, RampDuty} {
      RampedOnRamp(p, e);
    }
  }

  /** The half-bridge stays on its ramp: the phase's values, at most 900 per mille, 50 to 600 kHz while it is driven. */
  lemma StepStaysOnRamp(p: Pre, e: nat, s: Sample)
    requires Inv(p) && OnRamp(p)
    ensures OnRamp(Step(p, e, s))
  {
    var q := Sampled(p, s);
    SampledInv(p, s);
    SampledOnRamp(p, s);
    EnteredInv(q);
    EnteredOnRamp(q);
    HandledOnRamp(Entered(q), e);
  }

  /** Ramping up, over-current aside. */
  predicate Ramping(p: Pre, s: Sample) {
    !s.ocp &&
    (|| p.cur in {RampTon, RampFreq}
     || (p.cur == RampDuty && p.last != Prebias)
     || (p.cur == Steady && p.last == RampDuty))
  }

  lemma RampIsGradual(p: Pre, s: Sample)
    requires Inv(p) && OnRamp(p) && Ramping(p, s)
    requires p.cur == RampDuty && p.last == RampFreq ==> p.seed == 0
    ensures var q := Step(p, 1, s);
            && p.duty <= q.duty <= p.duty + 4
            && (p.cur != RampTon || p.last == RampTon ==> p.freq <= q.freq)
  {
    DutiesAreGradual(p.phaseMs);
    DutiesMeet(p.phaseMs);
    DutiesAreGradual(0);
    if p.last == p.cur {
      RampContinues(p, s);
    }
  }

  lemma RampContinues(p: Pre, s: Sample)
    requires Ramping(p, s) && p.last == p.cur
    ensures var q := Step(p, 1, s);
            && (p.cur == RampTon ==> q.freq == p.freq && q.duty == Duty2(p.phaseMs + 1))
            && (p.cur == RampFreq ==> q.freq == Freq3(p.phaseMs + 1) && q.duty == Duty3(p.phaseMs + 1))
            && (p.cur == RampDuty ==> q.freq == p.freq && q.duty == Duty4(p.phaseMs + 1))
  {}

  /** The seed is zero on the first attempt's cold ramp; only a warm start sets it and only a reset clears it. */
  predicate FreshSeed(p: Pre) {
    && (p.cur == Idle && p.startRequested ==> p.seed == 0)
    && (p.retry == 0 && p.cur in {EnClear, Prebias, RampTon, RampFreq} ==> p.seed == 0)
    && (p.retry == 0 && p.cur == RampDuty && p.last == RampFreq ==> p.seed == 0)
  }

  lemma SeedIsKept(p: Pre, e: nat, s: Sample)
    requires Inv(p)
    ensures var q := Step(p, e, s); q.seed != p.seed ==> p.cur == Prebias && q.cur == RampDuty
  {}

  lemma FirstAttemptSeed(p: Pre, e: nat, s: Sample)
    requires Inv(p) && FreshSeed(p)
    ensures FreshSeed(Step(p, e, s))
  {
    var q := Entered(Sampled(p, s));
    assert FreshSeed(q) && q.last == q.cur;
    HandledSeed(q, e);
  }

  lemma HandledSeed(p: Pre, e: nat)
    requires FreshSeed(p) && p.last == p.cur
    ensures FreshSeed(Handle(p, e))
  {}

  // ---------- whole attempts ----------

  lemma BeginIsFresh(p: Pre)
    requires Inv(p) && OnRamp(p)
    ensures var q := Begin(p); Inv(q) && OnRamp(q) && FreshSeed(q)
  {}

  /** From the start request on, through retries and any inputs, the outputs are on the ramp of their phase. */
  lemma {:induction false} AttemptStaysOnRamp(p: Pre, ticks: seq<Tick>)
    requires Inv(p) && OnRamp(p)
    ensures var q := Run(Begin(p), ticks); Inv(q) && OnRamp(q) && FreshSeed(q)
  {
    if ticks == [] {
      BeginIsFresh(p);
    } else {
      var n := |ticks| - 1;
      AttemptStaysOnRamp(p, ticks[..n]);
      var q := Run(Begin(p), ticks[..n]);
      StepKeepsInv(q, ticks[n].e, ticks[n].sample);
      StepStaysOnRamp(q, ticks[n].e, ticks[n].sample);
      FirstAttemptSeed(q, ticks[n].e, ticks[n].sample);
    }
  }

  /**
    In any attempt, however it got there, the next millisecond of ramping lowers neither output and raises
    duty by at most four per mille; only the first step of the ramp sets the frequency, to 50 kHz. The one
    exception is a cold ramp that enters phase four on a retry with a seed left over.
  */
  lemma AttemptIsGradual(p: Pre, ticks: seq<Tick>, s: Sample)
    requires Inv(p) && OnRamp(p) && Ramping(Run(Begin(p), ticks), s)
    requires var q := Run(Begin(p), ticks); q.cur == RampDuty && q.last == RampFreq && q.retry > 0 ==> q.seed == 0
    ensures var q := Run(Begin(p), ticks);
            var r := Step(q, 1, s);
            && q.duty <= r.duty <= q.duty + 4
            && (q.chgEn ==> FREQ_LOW <= q.freq <= r.freq <= FREQ_HIGH)
  {
    var q := Run(Begin(p), ticks);
    AttemptStaysOnRamp(p, ticks);
    RampIsGradual(q, s);
    StepStaysOnRamp(q, 1, s);
  }

  // ---------- a seed left over ----------

  /** A seed left over from a warm attempt makes the cold ramp jump, harmlessly only up to two milliseconds. */
  lemma StaleSeedJumps(p: Pre, s: Sample)
    requires Inv(p) && OnRamp(p) && !s.ocp && p.cur == RampDuty && p.last == RampFreq
    ensures Step(p, 1, s).duty == Duty4(p.seed + 1)
    ensures Step(p, 1, s).duty <= p.duty + 4 <==> p.seed <= 2
  {}

  /** n milliseconds with the same reading. */
  function Hold(p: Pre, s: Sample, n: nat): Pre {
    if n == 0 then p else Step(Hold(p, s, n - 1), 1, s)
  }

  function Ticks(s: Sample, n: nat): (ticks: seq<Tick>)
    ensures |ticks| == n && forall i :: 0 <= i < n ==> ticks[i] == Tick(1, s)
  {
    if n == 0 then [] else Ticks(s, n - 1) + [Tick(1, s)]
  }

  lemma {:induction false} RunTicks(p: Pre, before: seq<Tick>, s: Sample, n: nat)
    ensures Run(p, before + Ticks(s, n)) == Hold(Run(p, before), s, n)
  {
    if n == 0 {
      assert before + Ticks(s, 0) == before;
    } else {
      RunTicks(p, before, s, n - 1);
      var ticks := before + Ticks(s, n);
      assert ticks[..|ticks| - 1] == before + Ticks(s, n - 1);
    }
  }

  function Length(phase: Phase): nat
    requires phase in {EnClear, RampTon, RampFreq}
  {
    match phase case EnClear => EN_CLEAR_MS case RampTon => PHASE2_MS case RampFreq => PHASE3_MS
  }

  function Successor(phase: Phase): Phase {
    match phase case EnClear => Prebias case RampTon => RampFreq case _ => RampDuty
  }

  /** What n milliseconds without over-current make of a timed phase that p is about to enter. */
  predicate Passing(p: Pre, q: Pre, n: nat)
    requires p.cur in {EnClear, RampTon, RampFreq}
  {
    && q.seed == p.seed && q.retry == p.retry && q.last == p.cur
    && (if n < Length(p.cur) then q.cur == p.cur && q.phaseMs == n else q.cur == Successor(p.cur))
  }

  lemma PhaseBegins(p: Pre, s: Sample)
    requires p.cur in {EnClear, RampTon, RampFreq} && p.last != p.cur && !s.ocp
    ensures Passing(p, Step(p, 1, s), 1)
  {}

  lemma PhaseGoesOn(p: Pre, q: Pre, s: Sample, n: nat)
    requires p.cur in {EnClear, RampTon, RampFreq} && !s.ocp && n < Length(p.cur) && Passing(p, q, n)
    ensures Passing(p, Step(q, 1, s), n + 1)
  {}

  /** A timed phase without over-current lasts its length and hands the seed and the retry count on. */
  lemma {:induction false} PhasePasses(p: Pre, s: Sample, n: nat)
    requires p.cur in {EnClear, RampTon, RampFreq} && p.last != p.cur && !s.ocp && 1 <= n <= Length(p.cur)
    ensures Passing(p, Hold(p, s, n), n)
  {
    if n == 1 {
      assert Hold(p, s, 0) == p;
      PhaseBegins(p, s);
    } else {
      PhasePasses(p, s, n - 1);
      PhaseGoesOn(p, Hold(p, s, n - 1), s, n - 1);
    }
  }

  lemma {:induction false} RecoveryPasses(p: Pre, s: Sample, n: nat)
    requires p.cur == p.last == OcpRecover && p.retry < OCP_RETRY_MAX && p.phaseMs == 1 && n <= 9
    ensures var q := Hold(p, s, n);
            && q.seed == p.seed && q.last == OcpRecover
            && (if n < 9 then q.cur == OcpRecover && q.phaseMs == 1 + n && q.retry == p.retry
                else q.cur == EnClear && q.retry == p.retry + 1)
  {
    if n > 0 {
      RecoveryPasses(p, s, n - 1);
    }
  }

  const WARM := Sample(true, 24000, 48000, false)
  const TRIP := Sample(true, 24000, 48000, true)
  const COLD := Sample(true, 0, 48000, false)

  /** Idle, clear, and sample a half-charged bus. */
  function WarmTicks(): seq<Tick> {
    Ticks(WARM, 1) + Ticks(WARM, 20) + Ticks(WARM, 1)
  }

  /** Trip at the first step of the ramp, and recover. */
  function TripTicks(before: seq<Tick>): seq<Tick> {
    before + Ticks(TRIP, 1) + Ticks(COLD, 9)
  }

  /** Clear again, find the bus cold, and ramp. */
  function ColdTicks(before: seq<Tick>): seq<Tick> {
    before + Ticks(COLD, 20) + Ticks(COLD, 1) + Ticks(COLD, 25) + Ticks(COLD, 25)
  }

  function WarmThenCold(): seq<Tick> {
    ColdTicks(TripTicks(WarmTicks()))
  }

  lemma ReachesWarmRamp(p: Pre)
    requires p.cur == Idle && p.startRequested && p.retry == 0
    ensures var q := Hold(Hold(Hold(p, WARM, 1), WARM, 20), WARM, 1);
            q.cur == RampDuty && q.last == Prebias && q.seed == 225 && q.retry == 0
  {
    var a := Hold(p, WARM, 1);
    assert a == Step(Hold(p, WARM, 0), 1, WARM) && a.cur == EnClear && a.last == Idle;
    PhasePasses(a, WARM, 20);
    var b := Hold(a, WARM, 20);
    assert Hold(b, WARM, 1) == Step(Hold(b, WARM, 0), 1, WARM);
    WarmChoice(b);
  }

  lemma WarmChoice(p: Pre)
    requires p.cur == Prebias && p.last == EnClear
    ensures var q := Step(p, 1, WARM); q.cur == RampDuty && q.last == Prebias && q.seed == 225 && q.retry == p.retry
  {}

  lemma ColdChoice(p: Pre)
    requires p.cur == Prebias && p.last == EnClear
    ensures var q := Step(p, 1, COLD); q.cur == RampTon && q.last == Prebias && q.seed == p.seed
  {}

  lemma TripRecovers(p: Pre)
    requires p.cur == RampDuty
    ensures var q := Step(p, 1, TRIP);
            q.cur == q.last == OcpRecover && q.phaseMs == 1 && q.seed == p.seed && q.retry == p.retry
  {}

  lemma TripsAndRetries(p: Pre)
    requires p.cur == RampDuty && p.last == Prebias && p.retry == 0
    ensures var q := Hold(Hold(p, TRIP, 1), COLD, 9);
            q.cur == EnClear && q.last == OcpRecover && q.seed == p.seed
  {
    var a := Hold(p, TRIP, 1);
    assert a == Step(Hold(p, TRIP, 0), 1, TRIP);
    TripRecovers(p);
    RecoveryPasses(a, COLD, 9);
  }

  lemma RampsCold(p: Pre)
    requires p.cur == EnClear && p.last == OcpRecover
    ensures var q := Hold(Hold(Hold(Hold(p, COLD, 20), COLD, 1), COLD, 25), COLD, 25);
            q.cur == RampDuty && q.last == RampFreq && q.seed == p.seed
  {
    PhasePasses(p, COLD, 20);
    var a := Hold(p, COLD, 20);
    var b := Hold(a, COLD, 1);
    assert b == Step(Hold(a, COLD, 0), 1, COLD);
    ColdChoice(a);
    PhasePasses(b, COLD, 25);
    PhasePasses(Hold(b, COLD, 25), COLD, 25);
  }

  lemma RunsWarm(p: Pre)
    requires p.cur == Idle && p.startRequested && p.retry == 0
    ensures var q := Run(p, WarmTicks()); q.cur == RampDuty && q.last == Prebias && q.seed == 225 && q.retry == 0
  {
    assert [] + Ticks(WARM, 1) == Ticks(WARM, 1);
    RunTicks(p, [], WARM, 1);
    RunTicks(p, Ticks(WARM, 1), WARM, 20);
    RunTicks(p, Ticks(WARM, 1) + Ticks(WARM, 20), WARM, 1);
    ReachesWarmRamp(p);
  }

  lemma RunsTrip(p: Pre, before: seq<Tick>)
    requires var q := Run(p, before); q.cur == RampDuty && q.last == Prebias && q.retry == 0
    ensures var q := Run(p, TripTicks(before));
            q.cur == EnClear && q.last == OcpRecover && q.seed == Run(p, before).seed
  {
    RunTicks(p, before, TRIP, 1);
    RunTicks(p, before + Ticks(TRIP, 1), COLD, 9);
    TripsAndRetries(Run(p, before));
  }

  lemma RunsCold(p: Pre, before: seq<Tick>)
    requires var q := Run(p, before); q.cur == EnClear && q.last == OcpRecover
    ensures var q := Run(p, ColdTicks(before));
            q.cur == RampDuty && q.last == RampFreq && q.seed == Run(p, before).seed
  {
    var t1 := before + Ticks(COLD, 20);
    var t2 := t1 + Ticks(COLD, 1);
    RunTicks(p, before, COLD, 20);
    RunTicks(p, t1, COLD, 1);
    RunTicks(p, t2, COLD, 25);
    RunTicks(p, t2 + Ticks(COLD, 25), COLD, 25);
    RampsCold(Run(p, before));
  }

  predicate Milliseconds(ticks: seq<Tick>, n: nat) {
    |ticks| == n && forall i :: 0 <= i < n ==> ticks[i].e == 1
  }

  lemma MoreMilliseconds(ticks: seq<Tick>, n: nat, s: Sample, k: nat)
    requires Milliseconds(ticks, n)
    ensures Milliseconds(ticks + Ticks(s, k), n + k)
  {}

  lemma WarmThenColdIsInMilliseconds()
    ensures Milliseconds(WarmThenCold(), 103)
  {
    var ticks := Ticks(WARM, 1);
    MoreMilliseconds(ticks, 1, WARM, 20);
    MoreMilliseconds(ticks + Ticks(WARM, 20), 21, WARM, 1);
    ticks := WarmTicks();
    MoreMilliseconds(ticks, 22, TRIP, 1);
    MoreMilliseconds(ticks + Ticks(TRIP, 1), 23, COLD, 9);
    ColdIsInMilliseconds(TripTicks(ticks), 32);
  }

  lemma ColdIsInMilliseconds(before: seq<Tick>, n: nat)
    requires Milliseconds(before, n)
    ensures Milliseconds(ColdTicks(before), n + 71)
  {
    MoreMilliseconds(before, n, COLD, 20);
    MoreMilliseconds(before + Ticks(COLD, 20), n + 20, COLD, 1);
    MoreMilliseconds(before + Ticks(COLD, 20) + Ticks(COLD, 1), n + 21, COLD, 25);
    MoreMilliseconds(before + Ticks(COLD, 20) + Ticks(COLD, 1) + Ticks(COLD, 25), n + 46, COLD, 25);
  }

  lemma WarmThenColdJumps(p: Pre)
    requires Inv(p) && OnRamp(p)
    ensures var q := Run(Begin(p), WarmThenCold());
            && q.cur == RampDuty && q.last == RampFreq && q.seed == 225
            && Step(q, 1, COLD).duty > q.duty + 4
  {
    var b := Begin(p);
    RunsWarm(b);
    RunsTrip(b, WarmTicks());
    RunsCold(b, TripTicks(WarmTicks()));
    AttemptStaysOnRamp(p, WarmThenCold());
    StaleSeedJumps(Run(b, WarmThenCold()), COLD);
  }

  /** 103 milliseconds, from any start request, end in a cold ramp with seed 225 and a jump of more than four. */
  lemma StaleSeedHappens(p: Pre)
    requires Inv(p) && OnRamp(p)
    ensures exists ticks: seq<Tick> ::
      Milliseconds(ticks, 103)
      && var q := Run(Begin(p), ticks);
         && q.cur == RampDuty && q.last == RampFreq && q.seed == 225
         && Step(q, 1, COLD).duty > q.duty + 4
  {
    WarmThenColdIsInMilliseconds();
    WarmThenColdJumps(p);
  }

  // ---------- steady without charging ----------

  /** Sampling leads straight to the steady state exactly when the bus is at 95 percent of a present supply. */
  lemma PrebiasIsFullIff(p: Pre, e: nat, s: Sample)
    requires p.cur == Prebias
    ensures var q := Sampled(p, s);
            Step(p, e, s).cur == Steady <==> q.vinMv > 0 && Ratio(q) >= 950
  {}

  /** The steady state is reported done with the output driven if and only if it was reached through the duty ramp. */
  lemma SteadyIsChargedIff(p: Pre, e: nat, s: Sample, e': nat, s': Sample)
    requires Inv(p) && p.cur != Steady && Step(p, e, s).cur == Steady
    ensures p.cur in {RampDuty, Prebias}
    ensures var q := Step(Step(p, e, s), e', s'); q.done && (q.chgEn <==> p.cur == RampDuty)
  {
    SampledInv(p, s);
    EnteredInv(Sampled(p, s));
    SteadyEntered(Step(p, e, s), e', s');
  }

  lemma SteadyEntered(p: Pre, e: nat, s: Sample)
    requires p.cur == Steady && p.last != Steady
    ensures Step(p, e, s).done && Step(p, e, s).chgEn == p.chgEn
  {}
}

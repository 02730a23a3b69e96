/**
  The main power board's program: both state machines and the fault policy as statements over the
  shared context, with every rail written through a setter that demands the interlock. Each method is
  proved to be the step of the same name in SoftStart and PowerSequence.
*/
module PowerBoards {
  import opened Bytes
  import opened Soft = SoftStart
  import opened Power = PowerSequence

  class MainBoard {
    var pre: Pre
    var pwr: Pwr
    var tripped: bool
    var lastEstop: bool

    ghost function Abs(): Board
      reads this
    {
      Board(pre, pwr, tripped, lastEstop)
    }

    /** The brake resistor never meets a driven rail. */
    ghost predicate Interlock()
      reads this
    {
      pwr.dbr ==> !pwr.motor && !pre.chgEn
    }

    constructor ()
      ensures Abs() == START && Power.Inv(Abs())
    {
      pre, pwr, tripped, lastEstop := START.pre, START.pwr, false, false;
    }

    // ---------- every write to a rail ----------

    method SetCharge(on: bool)
      requires Interlock() && (on ==> !pwr.dbr)
      modifies this`pre
      ensures Interlock() && pre == old(pre).(chgEn := on)
    {
      pre := pre.(chgEn := on);
    }

    method SetMotor(on: bool)
      requires Interlock() && (on ==> !pwr.dbr)
      modifies this`pwr
      ensures Interlock() && pwr == old(pwr).(motor := on)
    {
      pwr := pwr.(motor := on);
    }

    method SetBrake(on: bool)
      requires Interlock() && (on ==> !pwr.motor && !pre.chgEn)
      modifies this`pwr
      ensures Interlock() && pwr == old(pwr).(dbr := on)
    {
      pwr := pwr.(dbr := on);
    }

    method SetPwm(duty: nat)
      modifies this`pre
      ensures pre == old(pre).(duty := duty)
    {
      pre := pre.(duty := duty);
    }

    // ---------- soft start ----------

    method OutputsOff()
      requires Interlock()
      modifies this`pre
      ensures Interlock() && pre == old(pre).(chgEn := false, duty := 0)
    {
      SetCharge(false);
      SetPwm(0);
    }

    method PrechargeEntry()
      requires Interlock() && (pre.cur in {RampTon, RampDuty} ==> !pwr.dbr)
      modifies this`pre
      ensures Interlock() && pre == Enter(old(pre))
    {
      var phase := pre.cur;
      pre := pre.(phaseMs := 0, last := phase);
      match phase
      case RampTon =>
        SetCharge(true);
        pre := pre.(freq := FREQ_LOW);
        SetPwm(0);
      case RampFreq =>
      case RampDuty =>
        SetCharge(true);
        pre := pre.(freq := FREQ_HIGH, phaseMs := pre.seed);
      case Steady =>
        pre := pre.(freq := FREQ_HIGH);
        SetPwm(DUTY_FULL);
        pre := pre.(done := true);
      case _ =>
        OutputsOff();
    }

    method PhaseRamp(freqStart: nat, freqEnd: nat, dutyStart: nat, dutyEnd: nat, duration: nat)
      modifies this`pre
      ensures var progress := Progress(pre.phaseMs, duration);
              pre == old(pre).(
                freq := if freqEnd > freqStart then freqStart + (freqEnd - freqStart) * progress / 1000
                        else old(pre).freq,
                duty := if dutyEnd > dutyStart then dutyStart + (dutyEnd - dutyStart) * progress / 1000 else dutyStart)
    {
      var t := if pre.phaseMs > duration then duration else pre.phaseMs;
      var progress := if duration > 0 then t * 1000 / duration else 1000;
      if freqEnd > freqStart {
        pre := pre.(freq := freqStart + (freqEnd - freqStart) * progress / 1000);
      }
      var duty := dutyStart;
      if dutyEnd > dutyStart {
        duty := dutyStart + (dutyEnd - dutyStart) * progress / 1000;
      }
      SetPwm(duty);
    }

    method PrebiasHandler()
      requires pre.cur == Prebias
      modifies this`pre
      ensures pre == ChooseStart(old(pre))
    {
      if pre.vinMv == 0 {
        pre := pre.(cur := RampTon);
        return;
      }
      var ratio := Wrap32(pre.busMv * 1000) / pre.vinMv;
      if ratio < 100 {
        pre := pre.(cur := RampTon);
      } else if ratio >= 950 {
        pre := pre.(cur := Steady);
      } else {
        var duty := if ratio < 100 then 100 else if ratio > 900 then 900 else ratio;
        pre := pre.(seed := (duty - 100) * 450 / 800, cur := RampDuty);
      }
    }

    method RampTonHandler(e: nat)
      requires pre.cur == RampTon
      modifies this`pre
      ensures pre == Handle(old(pre), e)
    {
      pre := pre.(phaseMs := pre.phaseMs + e);
      PhaseRamp(FREQ_LOW, FREQ_LOW, 0, 8, PHASE2_MS);
      if pre.phaseMs >= PHASE2_MS {
        pre := pre.(cur := RampFreq);
      }
    }

    method RampFreqHandler(e: nat)
      requires pre.cur == RampFreq
      modifies this`pre
      ensures pre == Handle(old(pre), e)
    {
      pre := pre.(phaseMs := pre.phaseMs + e);
      PhaseRamp(FREQ_LOW, FREQ_HIGH, 8, 100, PHASE3_MS);
      if pre.phaseMs >= PHASE3_MS {
        pre := pre.(cur := RampDuty);
      }
    }

    method RampDutyHandler(e: nat)
      requires pre.cur == RampDuty
      modifies this`pre
      ensures pre == Handle(old(pre), e)
    {
      pre := pre.(phaseMs := pre.phaseMs + e);
      PhaseRamp(FREQ_HIGH, FREQ_HIGH, 100, 900, PHASE4_MS);
      if pre.phaseMs >= NO_LOAD_CHECK_MS && pre.busMv < NO_LOAD_MV {
        pre := pre.(failure := NoLoad, cur := Fault);
      } else if pre.phaseMs >= PHASE4_MS {
        pre := pre.(cur := Steady);
      }
    }

    method OcpRecoverHandler(e: nat)
      requires pre.cur == OcpRecover
      modifies this`pre
      ensures pre == Handle(old(pre), e)
    {
      pre := pre.(phaseMs := pre.phaseMs + e);
      if pre.phaseMs >= OCP_RECOVER_MS {
        if pre.retry < OCP_RETRY_MAX {
          pre := pre.(retry := pre.retry + 1, cur := EnClear);
        } else {
          pre := pre.(failure := ShortCircuit, cur := Fault);
        }
      }
    }

    method PrechargeHandler(e: nat)
      modifies this`pre
      ensures pre == Handle(old(pre), e)
    {
      match pre.cur
      case Idle =>
        if pre.startRequested {
          pre := pre.(startRequested := false, retry := 0, failure := NoFailure, done := false, cur := EnClear);
        }
      case EnClear =>
        pre := pre.(phaseMs := pre.phaseMs + e);
        if pre.phaseMs >= EN_CLEAR_MS {
          pre := pre.(cur := Prebias);
        }
      case Prebias =>
        PrebiasHandler();
      case RampTon =>
        RampTonHandler(e);
      case RampFreq =>
        RampFreqHandler(e);
      case RampDuty =>
        RampDutyHandler(e);
      case OcpRecover =>
        OcpRecoverHandler(e);
      case _ =>
    }

    method PrechargeStep(e: nat, s: Sample)
      requires Power.Inv(Abs()) && Interlock()
      modifies this`pre
      ensures Interlock() && pre == Soft.Step(old(pre), e, s)
    {
      var watched := OcpWatched(pre.cur);
      if s.updated {
        pre := pre.(busMv := s.busMv, vinMv := s.vinMv);
      }
      if watched && s.ocp {
        pre := pre.(last := pre.cur, cur := OcpRecover);
      }
      if pre.last != pre.cur {
        PrechargeEntry();
      }
      PrechargeHandler(e);
    }

    method PrechargeReset()
      requires Interlock()
      modifies this`pre
      ensures Interlock() && pre == Soft.Reset(old(pre))
    {
      pre := pre.(startRequested := false, retry := 0, failure := NoFailure, done := false, seed := 0);
      OutputsOff();
      pre := pre.(last := pre.cur, cur := Phase.Idle);
    }

    method PrechargeBegin()
      requires Interlock()
      modifies this`pre
      ensures Interlock() && pre == Soft.Begin(old(pre))
    {
      PrechargeReset();
      pre := pre.(startRequested := true, done := false);
    }

    // ---------- power sequence ----------

    method AuxOn()
      requires Interlock()
      modifies this`pwr
      ensures Interlock() && pwr == old(pwr).(auxFlag := true, aux := true, dbr := false)
    {
      pwr := pwr.(auxFlag := true, aux := true);
      SetBrake(false);
    }

    method MotorOn()
      requires Interlock() && !pwr.dbr
      modifies this`pwr
      ensures Interlock() && pwr == old(pwr).(handedOver := false, motorFlag := true, motor := true)
    {
      pwr := pwr.(handedOver := false, motorFlag := true);
      SetMotor(true);
    }

    method StageEntry()
      requires Interlock() && (pwr.cur == Motor ==> !pwr.dbr)
      modifies this`pre, this`pwr
      ensures Interlock() && Board(pre, pwr, tripped, lastEstop) == EnterStage(old(Abs()))
    {
      pwr := pwr.(steadyMs := 0, last := pwr.cur);
      match pwr.cur
      case Aux =>
        AuxOn();
      case Precharging =>
        PrechargeBegin();
      case Motor =>
        MotorOn();
      case _ =>
    }

    method EndBraking()
      requires Interlock()
      modifies this`pwr
      ensures Interlock() && pwr == old(pwr).(dbrFlag := false, dbrCount := 0, dbr := false)
    {
      pwr := pwr.(dbrFlag := false, dbrCount := 0);
      SetBrake(false);
    }

    method Discharge()
      requires Interlock()
      modifies this`pwr
      ensures Interlock()
      ensures pwr == Discharged(old(pwr), pre.busMv)
    {
      if pre.busMv < DBR_MV && pwr.dbrFlag {
        EndBraking();
      }
      if pwr.dbrFlag {
        var count := pwr.dbrCount;
        pwr := pwr.(dbrCount := count + 1);
        if count > DBR_MS {
          EndBraking();
        }
      }
    }

    method OffHandler()
      requires Interlock() && pwr.cur == Off
      modifies this`pwr
      ensures Interlock() && Abs() == HandleOff(old(Abs()))
    {
      Discharge();
      pwr := pwr.(cur := if pwr.requested then Aux else Off);
    }

    method HandOver()
      requires Interlock()
      modifies this`pre, this`pwr
      ensures Interlock()
      ensures Abs() == HandedOver(old(Abs()))
    {
      if pwr.handedOver {
        return;
      }
      var up := pre.vinMv > 0 && pre.busMv >= Wrap32(pre.vinMv * 98) / 100;
      if up || pwr.steadyMs >= HANDOVER_MS {
        PrechargeReset();
        pwr := pwr.(handedOver := true);
      }
    }

    method MotorHandler()
      requires Interlock() && pwr.cur == Motor
      modifies this`pre, this`pwr
      ensures Interlock() && Abs() == HandleMotor(old(Abs()))
    {
      HandOver();
      pwr := pwr.(cur := if pwr.handedOver && pwr.steadyMs >= STEADY_MS then Done else Motor);
    }

    method AuxHandler()
      requires pwr.cur == Aux
      modifies this`pwr
      ensures Abs() == HandleAux(old(Abs())) && pwr.dbr == old(pwr.dbr) && pwr.motor == old(pwr.motor)
    {
      pwr := pwr.(cur := if pwr.steadyMs >= STEADY_MS then Precharging else Aux);
    }

    method PrechargingHandler()
      requires pwr.cur == Precharging
      modifies this`pwr
      ensures Abs() == HandlePrecharging(old(Abs())) && pwr.dbr == old(pwr.dbr) && pwr.motor == old(pwr.motor)
    {
      if pre.failure != NoFailure {
        pwr := pwr.(requested := false, cur := Off);
      } else if pre.done {
        pwr := pwr.(cur := Motor);
      }
    }

    method StageHandler()
      requires Interlock()
      modifies this`pre, this`pwr
      ensures Interlock() && Abs() == HandleStage(old(Abs()))
    {
      match pwr.cur
      case Off => OffHandler();
      case Aux => AuxHandler();
      case Precharging => PrechargingHandler();
      case Motor => MotorHandler();
      case Done =>
    }

    method Step(e: nat, s: Sample)
      requires Power.Inv(Abs())
      modifies this`pre, this`pwr
      ensures Abs() == BoardStep(old(Abs()), e, s) && Power.Inv(Abs()) && Interlock()
    {
      RailOrder(Abs());
      BoardStepKeepsInv(Abs(), e, s);
      PrechargeStep(e, s);
      pwr := pwr.(steadyMs := Add16(pwr.steadyMs, e));
      if pwr.last != pwr.cur {
        StageEntry();
      }
      StageHandler();
    }

    method RequestOn()
      modifies this`pwr
      ensures Abs() == Power.RequestOn(old(Abs()))
    {
      if !pwr.requested {
        pwr := pwr.(requested := true);
      }
    }

    method EmergencyOff()
      requires Interlock()
      modifies this`pre, this`pwr
      ensures Interlock() && Abs() == Power.EmergencyOff(old(Abs()))
    {
      if !pwr.requested {
        return;
      }
      pwr := pwr.(requested := false, steadyMs := 0, auxFlag := false, motorFlag := false, dbrFlag := true);
      pwr := pwr.(last := pwr.cur, cur := Off);
      SetMotor(false);
      SetCharge(false);
      SetBrake(true);
      PrechargeReset();
    }

    // ---------- fault policy ----------

    method PolicyStep(st: Status)
      requires Power.Inv(Abs())
      modifies this
      ensures Abs() == Policy(old(Abs()), st) && Power.Inv(Abs()) && Interlock()
    {
      RailOrder(Abs());
      PolicyKeepsInv(Abs(), st);
      RailOrder(Policy(Abs(), st));
      if tripped && st.estop {
        return;
      }
      var critical := (pwr.motorFlag && !st.motorOk) || (pwr.auxFlag && !st.auxOk) || st.otherFault;
      if st.estop || (pwr.cur == Done && critical) {
        tripped := true;
        EmergencyOff();
      }
      if lastEstop != st.estop {
        lastEstop := st.estop;
        if !st.estop {
          tripped := false;
          RequestOn();
        }
      }
    }

    /** One millisecond of the power task. */
    method Millisecond(s: Sample, st: Status)
      requires Power.Inv(Abs())
      modifies this
      ensures Abs() == Power.Tick(old(Abs()), s, st) && Power.Inv(Abs()) && Interlock()
      ensures st.estop ==> !pwr.motor && !pwr.requested && (pre.chgEn <==> NoLoadNow(old(Abs()), s))
    {
      if st.estop {
        EstopCutsPower(Abs(), s, st);
      }
      Step(1, s);
      PolicyStep(st);
    }
  }
}

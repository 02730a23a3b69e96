/** The control board's program: the sequence and the policy as statements over their static contexts. */
module CtuBoards {
  import opened Bytes
  import opened Spec = CtuPower

  class ControlBoard {
    var pc: Pc
    var tripped: bool
    var edgeValid: bool
    var edgePrev: bool
    var enPrev: bool
    var enSince: nat
    var lowSince: nat

    ghost function Abs(): Board
      reads this
    {
      Board(pc, Policy(tripped, edgeValid, edgePrev, enPrev, enSince, lowSince))
    }

    constructor ()
      ensures Abs() == START && Inv(Abs())
    {
      pc := START.pc;
      tripped, edgeValid, edgePrev, enPrev, enSince, lowSince := false, false, false, false, 0, 0;
    }

    // ---------- the sequence ----------

    method EntryAction()
      modifies this`pc
      ensures pc == Enter(old(pc))
    {
      pc := pc.(stageMs := 0, pgdSteps := 0, last := pc.cur);
      if pc.cur == EnVin {
        pc := pc.(vin := true);
      } else if pc.cur == En24V {
        pc := pc.(dc24 := true);
      }
    }

    method RailsAllOff()
      modifies this`pc
      ensures pc == old(pc).(motor := false, aux := false, dc24 := false, vin := false, stageMs := 0, pgdSteps := 0)
    {
      pc := pc.(motor := false, aux := false, dc24 := false, vin := false);
      pc := pc.(stageMs := 0, pgdSteps := 0);
    }

    method StateIdle(r: Reading)
      requires pc.cur == Idle
      modifies this`pc
      ensures pc == HandleIdle(old(pc), r)
    {
      if pc.ovLatched && InRange(r.vinMv) {
        pc := pc.(ovLatched := false, ovMs := 0, cur := CheckVin);
      }
    }

    method StateCheckVin(r: Reading)
      requires pc.cur == CheckVin
      modifies this`pc
      ensures pc == HandleCheckVin(old(pc), r)
    {
      if InRange(r.vinMv) {
        if !pc.aux {
          pc := pc.(aux := true);
        }
        pc := pc.(stageMs := 0, cur := CheckDcdc);
      }
    }

    method StateCheckDcdc(r: Reading)
      requires pc.cur == CheckDcdc
      modifies this`pc
      ensures pc == HandleCheckDcdc(old(pc), r)
    {
      if r.vinMv > 0 && Wrap32(r.dcdcMv * 1000) / r.vinMv >= 900 {
        pc := pc.(stageMs := 0, cur := EnVin);
      }
    }

    method StateEnVin(r: Reading)
      requires pc.cur == EnVin
      modifies this`pc
      ensures pc == HandleEnVin(old(pc), r)
    {
      pc := pc.(stageMs := pc.stageMs + r.e);
      if pc.stageMs >= SETTLE_MS {
        pc := pc.(stageMs := 0, cur := En24V);
      }
    }

    method DualPgdOk(pgd: bool) returns (ok: bool)
      modifies this`pc
      ensures var n := old(pc).pgdSteps;
              var steps := if !pgd then 0 else if n < PGD_STEPS then n + 1 else n;
              pc == old(pc).(pgdSteps := steps) && ok == (steps >= PGD_STEPS)
    {
      if pgd {
        if pc.pgdSteps < PGD_STEPS {
          pc := pc.(pgdSteps := pc.pgdSteps + 1);
        }
        return pc.pgdSteps >= PGD_STEPS;
      }
      pc := pc.(pgdSteps := 0);
      ok := false;
    }

    method StateEn24V(r: Reading)
      requires pc.cur == En24V
      modifies this`pc
      ensures pc == HandleEn24V(old(pc), r)
    {
      var ok := DualPgdOk(r.pgd);
      if ok {
        pc := pc.(stageMs := 0, cur := Powered);
      }
    }

    method StatePowered(r: Reading)
      requires pc.cur == Powered
      modifies this`pc
      ensures pc == HandlePowered(old(pc), r)
    {
      if r.vinMv >= OV_TRIP_MV {
        pc := pc.(ovMs := pc.ovMs + r.e);
        if pc.ovMs >= OV_TRIP_MS {
          RailsAllOff();
          pc := pc.(ovLatched := true, ovMs := 0, cur := Idle);
          return;
        }
      } else {
        pc := pc.(ovMs := 0);
      }
      if pc.motorDesired && !pc.motor {
        pc := pc.(motor := true);
      }
    }

    method Step(r: Reading)
      requires Inv(Abs())
      modifies this`pc
      ensures Abs() == Next(old(Abs()), Power(r)) && Inv(Abs())
    {
      PowerStepKeepsInv(Abs(), r);
      if pc.last != pc.cur {
        EntryAction();
      }
      match pc.cur
      case Idle => StateIdle(r);
      case CheckVin => StateCheckVin(r);
      case CheckDcdc => StateCheckDcdc(r);
      case EnVin => StateEnVin(r);
      case En24V => StateEn24V(r);
      case Powered => StatePowered(r);
    }

    method MotorSet(on: bool)
      modifies this`pc
      ensures pc == Spec.MotorSet(old(pc), on)
    {
      pc := pc.(motorDesired := on);
      if on {
        if pc.cur == Powered {
          pc := pc.(motor := true);
        }
        return;
      }
      pc := pc.(motor := false);
    }

    // ---------- the policy ----------

    method Critical(motorOn: bool, st: Status) returns (fault: bool)
      modifies this`enPrev, this`enSince, this`lowSince
      ensures Judged(Abs().policy, fault) == Judge(old(Abs()).policy, motorOn, st)
    {
      if motorOn {
        if !enPrev {
          enSince := st.now;
        }
        enPrev := true;
        var settled := st.now - enSince >= PGD_SETTLE_MS;
        if settled {
          if !st.motorOk {
            if lowSince == 0 {
              lowSince := st.now;
            }
            return st.now - lowSince >= PGD_DEBOUNCE_MS;
          }
          lowSince := 0;
        }
      } else {
        enPrev, enSince, lowSince := false, 0, 0;
      }
      fault := false;
    }

    method ResetLatch()
      modifies this`tripped
      ensures Abs() == Next(old(Abs()), OperatorReset)
      ensures Inv(old(Abs())) ==> Inv(Abs())
    {
      if tripped {
        tripped := false;
      }
    }

    /** Either edge of the sampled button counts, except on the very first sample. */
    method EdgeDetect(sample: bool) returns (edge: bool)
      modifies this`edgeValid, this`edgePrev
      ensures edge == (old(edgeValid) && old(edgePrev) != sample)
      ensures edgeValid && edgePrev == sample
    {
      if !edgeValid {
        edgePrev, edgeValid := sample, true;
        return false;
      }
      edge := edgePrev != sample;
      edgePrev := sample;
    }

    method PolicyStep(st: Status)
      modifies this
      ensures Abs() == Next(old(Abs()), Check(st))
    {
      var powered, motorOn := pc.cur == Powered, pc.motor;
      var edge := EdgeDetect(st.estop);
      if edge {
        ResetLatch();
      }
      if tripped && st.estop {
        if motorOn {
          MotorSet(false);
        }
        return;
      }
      var trip := st.estop;
      if !trip && powered {
        trip := Critical(motorOn, st);
      }
      if trip {
        tripped := true;
        MotorSet(false);
      }
      if !tripped && powered && !st.estop && !motorOn {
        MotorSet(true);
      }
    }

    /** A check of the policy, in a reachable state. */
    method PolicyTask(st: Status)
      requires Inv(Abs())
      modifies this
      ensures Abs() == Next(old(Abs()), Check(st)) && Inv(Abs())
      ensures st.estop ==> !pc.motor && !pc.motorDesired && tripped
    {
      PolicyKeepsInv(Abs(), st);
      if st.estop {
        EstopSeen(Abs(), st);
      }
      PolicyStep(st);
    }
  }
}

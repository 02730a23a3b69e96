/** The control board's PWM group: one timer's divider shared by three channels with their own duties. */
module Pwm {

  const CLOCK: nat := 72_000_000
  const MAX_FREQ: nat := 36_000_000
  const CHANNELS: nat := 3
  const ARR_MAX: nat := 0xFFFF
  const DEFAULT_FREQ: nat := 25_000

  datatype Divider = Divider(psc: nat, arr: nat)

  // ---------- choosing the divider ----------

  predicate Fits16(total: nat, psc: nat) {
    total / (psc + 1) <= 65536
  }

  /** The smallest prescaler whose period fits 16 bits, and that period. */
  ghost predicate IsDivider(freq: nat, d: Divider)
    requires freq > 0
  {
    var total := CLOCK / freq;
    && Fits16(total, d.psc) && d.arr + 1 == total / (d.psc + 1)
    && forall k :: 0 <= k < d.psc ==> !Fits16(total, k)
  }

  lemma QuotientBounds(x: nat, n: nat)
    requires n > 0
    ensures x / n * n <= x < x / n * n + n
  {}

  lemma {:induction false} ProductGrows(p: nat, q: nat, n: nat)
    requires p <= q
    ensures p * n <= q * n
    decreases q
  {
    if p < q {
      ProductGrows(p, q - 1, n);
    }
  }

  /** A quotient of at least 65537 keeps the divisor small. */
  lemma BigQuotient(total: nat, n: nat)
    requires n > 0 && total / n >= 65537
    ensures 65537 * n <= total
  {
    QuotientBounds(total, n);
    ProductGrows(65537, total / n, n);
  }

  lemma PrescalerIsSmall(freq: nat, d: Divider)
    requires 0 < freq && IsDivider(freq, d)
    ensures d.psc <= 1098
  {
    if d.psc > 0 {
      assert !Fits16(CLOCK / freq, d.psc - 1);
      BigQuotient(CLOCK / freq, d.psc);
      TotalBounded(freq);
    }
  }

  lemma TotalBounded(freq: nat)
    requires freq > 0
    ensures CLOCK / freq <= CLOCK
  {
    QuotientBounds(CLOCK, freq);
    ProductGrows(1, freq, CLOCK / freq);
  }

  /**
    The output is never slower than asked, and the period is short by less than one prescaled tick:
    0 <= clock/freq - (psc+1)(arr+1) < psc+1, cleared of its denominator.
  */
  lemma DividerIsAccurate(freq: nat, d: Divider)
    requires 0 < freq && IsDivider(freq, d)
    ensures (d.psc + 1) * (d.arr + 1) * freq <= CLOCK < ((d.psc + 1) * (d.arr + 1) + d.psc + 1) * freq
  {
    var total, n := CLOCK / freq, d.psc + 1;
    var ticks := (d.arr + 1) * n;
    QuotientBounds(CLOCK, freq);
    QuotientBounds(total, n);
    ProductGrows(ticks, total, freq);
    ProductGrows(total + 1, ticks + n, freq);
    assert (total + 1) * freq == total * freq + freq;
  }

  /** No legal frequency has a period of 65536 ticks, so a period never needs the seventeenth bit. */
  lemma PeriodIsShort(freq: nat, d: Divider)
    requires 0 < freq && IsDivider(freq, d)
    ensures d.arr < ARR_MAX
  {
    DividerIsAccurate(freq, d);
    var period, m := d.arr + 1, (d.psc + 1) * freq;
    assert (d.psc + 1) * period * freq == period * m;
    assert ((d.psc + 1) * period + d.psc + 1) * freq == period * m + m;
    MissesPeriod(m);
    if period == 65536 {
      assert false;
    }
  }

  /** The clock lies in no interval from 65536 * m to 65537 * m. */
  lemma MissesPeriod(m: nat)
    ensures !(65536 * m <= CLOCK < 65536 * m + m)
  {}

  lemma DividerIsUnique(freq: nat, c: Divider, d: Divider)
    requires 0 < freq && IsDivider(freq, c) && IsDivider(freq, d)
    ensures c == d
  {
    if c.psc < d.psc {
      assert false;
    } else if d.psc < c.psc {
      assert false;
    }
  }

  /** The search raises the prescaler until the period fits. */
  method FindDivider(freq: nat) returns (d: Divider)
    requires 1 <= freq <= MAX_FREQ
    ensures IsDivider(freq, d) && 1 <= d.arr <= ARR_MAX
  {
    var total := CLOCK / freq;
    QuotientBounds(CLOCK, freq);
    if total <= 1 {
      ProductGrows(total, 1, freq);
    }
    var psc := 0;
    if total - 1 > ARR_MAX {
      while total / (psc + 1) - 1 > ARR_MAX
        invariant forall k :: 0 <= k < psc ==> !Fits16(total, k)
        decreases total - psc
      {
        BigQuotient(total, psc + 1);
        psc := psc + 1;
      }
      StillBig(total, psc);
    }
    d := Divider(psc, total / (psc + 1) - 1);
  }

  /** The first period that fits is not a small one. */
  lemma StillBig(total: nat, psc: nat)
    requires total > 65536 && psc > 0 && !Fits16(total, psc - 1)
    ensures total / (psc + 1) >= 2
  {
    BigQuotient(total, psc);
    if total / (psc + 1) <= 1 {
      QuotientBounds(total, psc + 1);
      ProductGrows(total / (psc + 1), 1, psc + 1);
    }
  }

  // ---------- duties ----------

  datatype Timer = Timer(divider: Divider, duty: seq<nat>, compare: seq<nat>)

  /** Compare value for a duty in per mille: zero is always off, a thousand always on. */
  function Compare(duty: nat, arr: nat): nat {
    duty * (arr + 1) / 1000
  }

  predicate Coherent(t: Timer) {
    && |t.duty| == |t.compare| == CHANNELS
    && t.divider.arr < ARR_MAX
    && forall i :: 0 <= i < CHANNELS ==> t.duty[i] <= 1000 && t.compare[i] == Compare(t.duty[i], t.divider.arr)
  }

  function Capped(permille: nat): nat {
    if permille > 1000 then 1000 else permille
  }

  function WithDuty(t: Timer, ch: nat, permille: nat): Timer
    requires |t.duty| == |t.compare| == CHANNELS
  {
    if ch >= CHANNELS then t
    else t.(
      duty := t.duty[ch := Capped(permille)],
      compare := t.compare[ch := Compare(Capped(permille), t.divider.arr)])
  }

  function WithDivider(t: Timer, d: Divider): Timer
    requires |t.duty| == CHANNELS
  {
    Timer(d, t.duty, seq(CHANNELS, i requires 0 <= i < CHANNELS => Compare(t.duty[i], d.arr)))
  }

  lemma OperationsKeepCoherence(t: Timer, ch: nat, permille: nat, d: Divider)
    requires Coherent(t) && d.arr < ARR_MAX
    ensures Coherent(WithDuty(t, ch, permille)) && Coherent(WithDivider(t, d))
  {}

  /** What a 16-bit compare register keeps of a value written to it. */
  function Register(x: nat): nat {
    x % 0x1_0000
  }

  /** Off and full on are exact, everything lies between, and the register truncates nothing. */
  lemma DutyIsAPart(duty: nat, arr: nat)
    requires duty <= 1000 && arr < ARR_MAX
    ensures Compare(duty, arr) <= arr + 1 && Register(Compare(duty, arr)) == Compare(duty, arr)
    ensures Compare(0, arr) == 0 && Compare(1000, arr) == arr + 1
  {
    ProductGrows(duty, 1000, arr + 1);
  }

  /** Between its ends the compare value is the duty's share of the period, rounded down. */
  lemma DutyIsProportional(duty: nat, arr: nat)
    ensures Compare(duty, arr) * 1000 <= duty * (arr + 1) < Compare(duty, arr) * 1000 + 1000
  {}

  /** Duty and frequency may be set in either order: the outputs are the same. */
  lemma OrderDoesNotMatter(t: Timer, ch: nat, permille: nat, d: Divider)
    requires Coherent(t)
    ensures WithDuty(WithDivider(t, d), ch, permille) == WithDivider(WithDuty(t, ch, permille), d)
  {
    var u, v := WithDuty(WithDivider(t, d), ch, permille), WithDivider(WithDuty(t, ch, permille), d);
    assert u.duty == v.duty;
    forall i | 0 <= i < CHANNELS ensures u.compare[i] == v.compare[i] {}
  }

  /** The registers depend on nothing but the divider and the stored duties. */
  lemma SettingsDetermineOutputs(t: Timer, u: Timer)
    requires Coherent(t) && Coherent(u) && t.divider == u.divider && t.duty == u.duty
    ensures t == u
  {
    assert forall i :: 0 <= i < CHANNELS ==> t.compare[i] == u.compare[i];
  }

  // ---------- the driver ----------

  datatype Result = Ok | InvalidParam

  class PwmGroup {
    const duty: array<nat>
    const compare: array<nat>
    var divider: Divider

    ghost predicate Valid()
      reads this, duty, compare
    {
      duty.Length == compare.Length == CHANNELS && duty != compare && Coherent(Abs())
    }

    ghost function Abs(): Timer
      reads this, duty, compare
    {
      Timer(divider, duty[..], compare[..])
    }

    constructor ()
      ensures Valid() && fresh(duty) && fresh(compare)
      ensures duty[..] == [0, 0, 0] && IsDivider(DEFAULT_FREQ, divider)
    {
      duty := new nat[CHANNELS](_ => 0);
      compare := new nat[CHANNELS](_ => 0);
      var d := FindDivider(DEFAULT_FREQ);
      PeriodIsShort(DEFAULT_FREQ, d);
      divider := d;
      new;
      assert duty[..] == [0, 0, 0];
    }

    method SetDuty(ch: nat, permille: nat) returns (r: Result)
      requires Valid()
      modifies duty, compare
      ensures Valid() && Abs() == WithDuty(old(Abs()), ch, permille)
      ensures r == if ch >= 3 then InvalidParam else Ok
      ensures r == Ok ==> duty[..] == old(duty[..])[ch := if permille > 1000 then 1000 else permille]
    {
      if ch >= CHANNELS {
        return InvalidParam;
      }
      OperationsKeepCoherence(Abs(), ch, permille, divider);
      var capped := if permille > 1000 then 1000 else permille;
      DutyIsAPart(capped, divider.arr);
      compare[ch] := Register(capped * (divider.arr + 1) / 1000);
      duty[ch] := capped;
      assert Abs() == WithDuty(old(Abs()), ch, permille);
      r := Ok;
    }

    method SetFrequency(ch: nat, freq: nat) returns (r: Result)
      requires Valid()
      modifies this`divider, compare
      ensures Valid()
      ensures r == if ch >= CHANNELS || freq == 0 || freq > MAX_FREQ then InvalidParam else Ok
      ensures divider.arr < ARR_MAX
      ensures if r == Ok then IsDivider(freq, divider) && Abs() == WithDivider(old(Abs()), divider)
              else Abs() == old(Abs())
    {
      if ch >= CHANNELS || freq == 0 || freq > CLOCK / 2 {
        return InvalidParam;
      }
      var d := FindDivider(freq);
      PeriodIsShort(freq, d);
      divider := d;
      for i := 0 to CHANNELS
        invariant divider == d && duty[..] == old(duty[..])
        invariant forall k :: 0 <= k < i ==> compare[k] == Compare(duty[k], d.arr)
      {
        DutyIsAPart(duty[i], d.arr);
        compare[i] := Register(duty[i] * (d.arr + 1) / 1000);
      }
      assert Abs() == WithDivider(old(Abs()), d);
      r := Ok;
    }
  }
}

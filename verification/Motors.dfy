/** One bus of up to six motors: the start-up sequence and the round of feedback queries. */
module Motors {
  import opened Bytes

  const SLOTS: nat := 6
  const CALIBRATION_MS: nat := 1500

  datatype Query = Info01 | Info02

  // ---------- registered motors in slot order ----------

  function Registered(motors: seq<bool>, n: nat): (s: seq<nat>)
    requires n <= |motors|
    ensures |s| <= n
    ensures forall i :: 0 <= i < |s| ==> s[i] < n && motors[s[i]]
  {
    if n == 0 then []
    else if motors[n - 1] then Registered(motors, n - 1) + [n - 1]
    else Registered(motors, n - 1)
  }

  lemma {:induction false} RegisteredIsPrefix(motors: seq<bool>, m: nat, n: nat)
    requires m <= n <= |motors|
    ensures Registered(motors, m) <= Registered(motors, n)
    decreases n
  {
    if m < n {
      RegisteredIsPrefix(motors, m, n - 1);
    }
  }

  /** slots are the registered motors, all of them, in slot order. */
  ghost predicate InSlotOrder(motors: seq<bool>, slots: seq<nat>) {
    && (forall i, j :: 0 <= i < j < |slots| ==> slots[i] < slots[j])
    && (forall k :: 0 <= k < |motors| ==> (k in slots <==> motors[k]))
  }

  lemma RegisteredAreInSlotOrder(motors: seq<bool>)
    ensures InSlotOrder(motors, Registered(motors, |motors|))
  {
    RegisteredInOrder(motors, |motors|);
  }

  lemma {:induction false} RegisteredInOrder(motors: seq<bool>, n: nat)
    requires n <= |motors|
    ensures forall i, j :: 0 <= i < j < |Registered(motors, n)| ==> Registered(motors, n)[i] < Registered(motors, n)[j]
    ensures forall k :: 0 <= k < n && motors[k] ==> k in Registered(motors, n)
  {
    if n > 0 {
      RegisteredInOrder(motors, n - 1);
    }
  }

  // ---------- polling ----------

  datatype Poller = Poller(cursor: nat, sinceInfo01: nat)

  function NextPoller(p: Poller, count: nat): Poller
    requires count > 0
  {
    Poller(if p.cursor + 1 == count then 0 else p.cursor + 1, if p.sinceInfo01 + 1 >= 3 then 0 else p.sinceInfo01 + 1)
  }

  function QueryOf(p: Poller): Query {
    if p.sinceInfo01 + 1 >= 3 then Info01 else Info02
  }

  /** The poller before poll k, counting from zero. */
  function PollerAt(k: nat, count: nat): Poller
    requires count > 0
  {
    if k == 0 then Poller(0, 0) else NextPoller(PollerAt(k - 1, count), count)
  }

  lemma {:induction false} ProductGrows(p: nat, q: nat, count: nat)
    requires p < q
    ensures p * count + count <= q * count
    decreases q
  {
    if p + 1 < q {
      ProductGrows(p, q - 1, count);
    }
  }

  lemma ModuloIs(k: nat, q: nat, r: nat, count: nat)
    requires r < count && k == q * count + r
    ensures k % count == r
  {
    var q' := k / count;
    assert k == q' * count + k % count;
    if q' > q {
      ProductGrows(q, q', count);
    } else if q' < q {
      ProductGrows(q', q, count);
    }
  }

  lemma ModuloNext(k: nat, count: nat)
    requires count > 0
    ensures (k + 1) % count == if k % count + 1 == count then 0 else k % count + 1
  {
    var q, r := k / count, k % count;
    assert k == q * count + r;
    if r + 1 == count {
      assert k + 1 == (q + 1) * count + 0;
      ModuloIs(k + 1, q + 1, 0, count);
    } else {
      ModuloIs(k + 1, q, r + 1, count);
    }
  }

  function Cursor(k: nat, count: nat): (j: nat)
    requires count > 0
    ensures j < count
  {
    if k == 0 then 0 else if Cursor(k - 1, count) + 1 == count then 0 else Cursor(k - 1, count) + 1
  }

  lemma {:induction false} CursorIsModulo(k: nat, count: nat)
    requires count > 0
    ensures Cursor(k, count) == k % count
  {
    if k > 0 {
      CursorIsModulo(k - 1, count);
      ModuloNext(k - 1, count);
    } else {
      ModuloIs(0, 0, 0, count);
    }
  }

  lemma {:induction false} PollerIsCursor(k: nat, count: nat)
    requires count > 0
    ensures PollerAt(k, count) == Poller(Cursor(k, count), k % 3)
  {
    if k > 0 {
      PollerIsCursor(k - 1, count);
    }
  }

  /** The k-th poll, from zero, goes to registered motor k modulo their number and asks INFO_01 every third time. */
  lemma PollsInTurn(k: nat, count: nat)
    requires count > 0
    ensures PollerAt(k, count) == Poller(k % count, k % 3)
    ensures QueryOf(PollerAt(k, count)) == Info01 <==> (k + 1) % 3 == 0
  {
    PollerIsCursor(k, count);
    CursorIsModulo(k, count);
  }

  /** Poll k asks motor j for INFO_01. */
  predicate AsksInfo01(k: nat, j: nat, count: nat)
    requires count > 0
  {
    PollerAt(k, count).cursor == j && QueryOf(PollerAt(k, count)) == Info01
  }

  lemma AsksIff(k: nat, j: nat, count: nat)
    requires count > 0
    ensures AsksInfo01(k, j, count) <==> Cursor(k, count) == j && (k + 1) % 3 == 0
  {
    PollerIsCursor(k, count);
  }

  /** Less than a round ahead the cursor has moved on, past the end at most once. */
  lemma {:induction false} CursorAhead(w: nat, d: nat, count: nat)
    requires count > 0 && d <= count
    ensures var c := Cursor(w, count) + d; Cursor(w + d, count) == if c < count then c else c - count
  {
    if d > 0 {
      CursorAhead(w, d - 1, count);
    }
  }

  /** The first poll of motor j at or after poll w. */
  function FirstTurn(w: nat, j: nat, count: nat): (k: nat)
    requires j < count
    ensures w <= k < w + count
  {
    var c := Cursor(w, count);
    if c <= j then w + (j - c) else w + (j - c + count)
  }

  lemma OnlyTurnInRound(w: nat, k: nat, j: nat, count: nat)
    requires j < count && w <= k < w + count
    ensures Cursor(k, count) == j <==> k == FirstTurn(w, j, count)
  {
    CursorAhead(w, k - w, count);
  }

  /** Each motor has one turn a round. */
  lemma TurnsInWindow(w: nat, k: nat, j: nat, count: nat)
    requires j < count && w <= k < w + 3 * count
    ensures var f := FirstTurn(w, j, count);
            Cursor(k, count) == j <==> k in {f, f + count, f + 2 * count}
  {
    CursorAhead(w, count, count);
    CursorAhead(w + count, count, count);
    if k < w + count {
      OnlyTurnInRound(w, k, j, count);
    } else if k < w + 2 * count {
      OnlyTurnInRound(w + count, k, j, count);
    } else {
      OnlyTurnInRound(w + 2 * count, k, j, count);
    }
  }

  lemma AddMod3(x: nat, y: nat)
    ensures (x + y) % 3 == var r := x % 3 + y % 3; if r < 3 then r else r - 3
  {}

  lemma OneInThree(f: nat, count: nat)
    requires count % 3 != 0
    ensures var a, b, c := (f + 1) % 3, (f + count + 1) % 3, (f + 2 * count + 1) % 3;
            && (a == 0 || b == 0 || c == 0) && !(a == 0 && b == 0) && !(a == 0 && c == 0) && !(b == 0 && c == 0)
  {
    AddMod3(f + 1, count);
    AddMod3(f + count + 1, count);
  }

  /** The turn, of the three within three rounds from w, on which motor j is asked for INFO_01. */
  function FairTurn(w: nat, j: nat, count: nat): (k: nat)
    requires j < count
    ensures w <= k < w + 3 * count
  {
    var f := FirstTurn(w, j, count);
    if (f + 1) % 3 == 0 then f else if (f + count + 1) % 3 == 0 then f + count else f + 2 * count
  }

  /**
    Fairness. When three does not divide the number of motors, in any window of three rounds every motor
    is asked for INFO_01 exactly once.
  */
  lemma FairPolling(w: nat, k: nat, j: nat, count: nat)
    requires j < count && count % 3 != 0 && w <= k < w + 3 * count
    ensures AsksInfo01(k, j, count) <==> k == FairTurn(w, j, count)
  {
    OneInThree(FirstTurn(w, j, count), count);
    TurnsInWindow(w, k, j, count);
    AsksIff(k, j, count);
  }

  lemma {:induction false} CursorInStep(k: nat, count: nat)
    requires count > 0 && count % 3 == 0
    ensures Cursor(k, count) % 3 == k % 3
  {
    if k > 0 {
      CursorInStep(k - 1, count);
    }
  }

  /** When three divides the number, two motors in three are never asked for INFO_01 and the others always. */
  lemma UnfairPolling(k: nat, j: nat, count: nat)
    requires j < count && count % 3 == 0 && PollerAt(k, count).cursor == j
    ensures AsksInfo01(k, j, count) <==> (j + 1) % 3 == 0
  {
    PollerIsCursor(k, count);
    CursorInStep(k, count);
  }

  // ---------- the group's program ----------

  datatype Startup = Startup(step: nat, motor: nat, enabledAt: nat)

  datatype Frame = Enable(slot: nat) | SetMode(slot: nat) | Poll(slot: nat, query: Query)

  datatype RegisterResult = Accepted | InvalidId | AlreadyThere

  function Enables(slots: seq<nat>): seq<Frame> {
    seq(|slots|, i requires 0 <= i < |slots| => Enable(slots[i]))
  }

  function Modes(slots: seq<nat>): seq<Frame> {
    seq(|slots|, i requires 0 <= i < |slots| => SetMode(slots[i]))
  }

  /** What the start-up sequence has sent: every motor enabled in slot order, then every motor's mode. */
  ghost predicate StartupLog(motors: seq<bool>, st: Startup, log: seq<Frame>) {
    && |motors| == SLOTS && st.step <= 2 && st.motor <= SLOTS
    && match st.step
       case 0 => log == Enables(Registered(motors, st.motor))
       case 1 => log == Enables(Registered(motors, SLOTS))
       case _ => log == Enables(Registered(motors, SLOTS)) + Modes(Registered(motors, st.motor))
  }

  /** One more frame of either round. */
  lemma StartupGoesOn(motors: seq<bool>, st: Startup, log: seq<Frame>)
    requires StartupLog(motors, st, log) && st.motor < SLOTS && motors[st.motor]
    ensures st.step == 0 ==> log + [Enable(st.motor)] == Enables(Registered(motors, st.motor + 1))
    ensures st.step == 2 ==>
              log + [SetMode(st.motor)] == Enables(Registered(motors, SLOTS)) + Modes(Registered(motors, st.motor + 1))
  {
    var slots := Registered(motors, st.motor);
    assert Enables(slots + [st.motor]) == Enables(slots) + [Enable(st.motor)];
    assert Modes(slots + [st.motor]) == Modes(slots) + [SetMode(st.motor)];
  }

  class MotorGroup {
    const motors: array<bool>
    var count: nat
    var cursor: nat
    var sinceInfo01: nat
    var startup: Startup

    ghost predicate Valid()
      reads this, motors
    {
      && motors.Length == SLOTS
      && count == |Registered(motors[..], SLOTS)|
      && (if count == 0 then cursor == 0 else cursor < count)
      && sinceInfo01 < 3
    }

    ghost function Slots(): seq<nat>
      requires motors.Length == SLOTS
      reads this, motors
    {
      Registered(motors[..], SLOTS)
    }

    constructor ()
      ensures Valid() && Slots() == [] && cursor == 0 && sinceInfo01 == 0 && fresh(motors)
      ensures StartupLog(motors[..], startup, []) && startup == Startup(0, 0, 0)
    {
      motors := new bool[SLOTS](_ => false);
      count, cursor, sinceInfo01 := 0, 0, 0;
      startup := Startup(0, 0, 0);
      new;
      NoneRegistered(motors[..], SLOTS);
    }

    /** Motor ids are one more than their slots. */
    method Register(id: byte) returns (r: RegisterResult)
      requires Valid()
      modifies this`count, motors
      ensures motors.Length == SLOTS
      ensures r == if id < 1 || id > 6 then InvalidId
                   else if old(motors[..])[id - 1] then AlreadyThere else Accepted
      ensures motors[..] == if r == Accepted then old(motors[..])[id - 1 := true] else old(motors[..])
      ensures Valid() && count == old(count) + if r == Accepted then 1 else 0
    {
      if id < 1 || id as int > SLOTS {
        return InvalidId;
      }
      if motors[id - 1] {
        return AlreadyThere;
      }
      RegisterAdds(motors[..], SLOTS, id as int - 1);
      motors[id - 1] := true;
      assert motors[..] == old(motors[..])[id - 1 := true];
      count := count + 1;
      r := Accepted;
    }

    method SkipEmpty()
      requires motors.Length == SLOTS && startup.motor <= SLOTS
      modifies this`startup
      ensures old(startup.motor) <= startup.motor <= SLOTS && startup == old(startup).(motor := startup.motor)
      ensures Registered(motors[..], startup.motor) == Registered(motors[..], old(startup.motor))
      ensures startup.motor < SLOTS ==> motors[startup.motor]
    {
      while startup.motor < SLOTS && !motors[startup.motor]
        invariant startup.motor <= SLOTS && startup == old(startup).(motor := startup.motor)
        invariant old(startup.motor) <= startup.motor
        invariant Registered(motors[..], startup.motor) == Registered(motors[..], old(startup.motor))
      {
        startup := startup.(motor := startup.motor + 1);
      }
    }

    /** One step of the start-up: at most one frame, and modes only after the calibration time. */
    method StartupStep(busy: bool, now: nat, ghost log: seq<Frame>) returns (sent: seq<Frame>, finished: bool)
      requires motors.Length == SLOTS && StartupLog(motors[..], startup, log)
      modifies this`startup
      ensures |sent| <= 1 && (busy ==> sent == [])
      ensures StartupLog(motors[..], startup, log + sent)
      ensures finished ==> log + sent == Enables(Slots()) + Modes(Slots())
      ensures old(startup.step) == 1 ==> (startup.step == 2 <==> now - startup.enabledAt >= 1500)
      ensures startup.enabledAt == if |sent| == 1 && sent[0].Enable? then now else old(startup.enabledAt)
      ensures finished ==> old(startup.step) == 2
      ensures !busy && old(startup.step) != 1 ==> |sent| == 1 || finished || startup.step == old(startup.step) + 1
    {
      sent, finished := [], false;
      assert log + [] == log;
      match startup.step
      case 0 =>
        if !busy {
          SkipEmpty();
          if startup.motor == SLOTS {
            startup := startup.(step := 1);
          } else {
            StartupGoesOn(motors[..], startup, log);
            sent := [Enable(startup.motor)];
            startup := startup.(enabledAt := now, motor := startup.motor + 1);
          }
        }
      case 1 =>
        if now - startup.enabledAt >= CALIBRATION_MS {
          startup := startup.(motor := 0, step := 2);
          assert log == log + Modes([]);
        }
      case _ =>
        if !busy {
          SkipEmpty();
          if startup.motor == SLOTS {
            finished := true;
          } else {
            StartupGoesOn(motors[..], startup, log);
            sent := [SetMode(startup.motor)];
            startup := startup.(motor := startup.motor + 1);
          }
        }
    }

    /** The cursor counts registered motors; the search walks the slots to find it. */
    method FindSlot() returns (slot: nat)
      requires Valid() && count > 0
      ensures slot < SLOTS && slot == Slots()[cursor] && InSlotOrder(motors[..], Slots())
    {
      RegisteredAreInSlotOrder(motors[..]);
      slot := 0;
      var n := 0;
      while slot < SLOTS && n <= cursor
        invariant slot <= SLOTS && n == |Registered(motors[..], slot)| <= cursor + 1
        invariant n == cursor + 1 ==> slot > 0 && motors[slot - 1]
      {
        if motors[slot] {
          n := n + 1;
        }
        slot := slot + 1;
      }
      RegisteredIsPrefix(motors[..], slot, SLOTS);
      slot := slot - 1;
    }

    /** One poll: the motor at the cursor, INFO_01 every third time, and the cursor moves on. */
    method PollOne() returns (sent: Option<Frame>)
      requires Valid()
      modifies this`cursor, this`sinceInfo01
      ensures Valid()
      ensures count == 0 ==> sent == None && cursor == old(cursor) && sinceInfo01 == old(sinceInfo01)
      ensures count > 0 ==>
                && sent == Some(Poll(Slots()[old(cursor)], QueryOf(Poller(old(cursor), old(sinceInfo01)))))
                && InSlotOrder(motors[..], Slots())
                && Poller(cursor, sinceInfo01) == NextPoller(Poller(old(cursor), old(sinceInfo01)), count)
    {
      if count == 0 {
        return None;
      }
      var slot := FindSlot();
      sinceInfo01 := sinceInfo01 + 1;
      var query := Info02;
      if sinceInfo01 >= 3 {
        sinceInfo01 := 0;
        query := Info01;
      }
      sent := Some(Poll(slot, query));
      CursorWraps(cursor, count);
      cursor := (cursor + 1) % count;
    }
  }

  lemma CursorWraps(cursor: nat, count: nat)
    requires cursor < count
    ensures (cursor + 1) % count == if cursor + 1 == count then 0 else cursor + 1
  {
    if cursor + 1 == count {
      ModuloIs(count, 1, 0, count);
    } else {
      ModuloIs(cursor + 1, 0, cursor + 1, count);
    }
  }

  lemma {:induction false} NoneRegistered(motors: seq<bool>, n: nat)
    requires n <= |motors| && forall i :: 0 <= i < n ==> !motors[i]
    ensures Registered(motors, n) == []
  {
    if n > 0 {
      NoneRegistered(motors, n - 1);
    }
  }

  lemma {:induction false} RegisterAdds(motors: seq<bool>, n: nat, slot: nat)
    requires n <= |motors| && slot < |motors| && !motors[slot]
    ensures |Registered(motors[slot := true], n)| == |Registered(motors, n)| + if slot < n then 1 else 0
  {
    if n > 0 {
      RegisterAdds(motors, n - 1, slot);
    }
  }
}

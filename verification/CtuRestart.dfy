/**
  The control board on its own schedule, ten milliseconds of the sequence and then one check of the policy:
  a life in which an over-voltage restart robs the motor rail of its settling window.
*/
module CtuRestart {
  import opened CtuPower

  const GOOD: Reading := Reading(1, 48000, 48000, true)
  const HIGH: Reading := Reading(1, 65000, 48000, true)

  // ---------- the schedule ----------

  /** Ten milliseconds of one supply, and whether the check at their end finds the motor rail's power-good high. */
  datatype Round = Round(reading: Reading, motorOk: bool)

  function Tens(r: Reading, n: nat): (events: seq<Event>)
    ensures |events| == n
    decreases n, r
  {
    if n == 0 then [] else Tens(r, n - 1) + [Power(r)]
  }

  /** The events of the rounds, the clock starting at zero. */
  function EventsOf(rounds: seq<Round>): seq<Event> {
    if rounds == [] then []
    else
      var n := |rounds| - 1;
      EventsOf(rounds[..n]) + Tens(rounds[n].reading, 10) + [Check(Status(10 * |rounds|, false, rounds[n].motorOk))]
  }

  function Hold(p: Pc, r: Reading, n: nat): Pc
    decreases n, p
  {
    if n == 0 then p else PowerStep(Hold(p, r, n - 1), r)
  }

  function RoundStep(b: Board, round: Round, now: nat): Board {
    PolicyTick(b.(pc := Hold(b.pc, round.reading, 10)), Status(now, false, round.motorOk))
  }

  function Lived(rounds: seq<Round>): Board {
    if rounds == [] then START
    else RoundStep(Lived(rounds[..|rounds| - 1]), rounds[|rounds| - 1], 10 * |rounds|)
  }

  lemma RunNext(b: Board, events: seq<Event>, e: Event)
    ensures Run(b, events + [e]) == Next(Run(b, events), e)
  {
    assert (events + [e])[..|events|] == events;
  }

  lemma {:induction false} RunTens(b: Board, c: Board, before: seq<Event>, r: Reading, n: nat)
    requires c == Run(b, before)
    ensures Run(b, before + Tens(r, n)) == c.(pc := Hold(c.pc, r, n))
  {
    if n == 0 {
      assert before + Tens(r, n) == before;
    } else {
      RunTens(b, c, before, r, n - 1);
      assert before + Tens(r, n) == before + Tens(r, n - 1) + [Power(r)];
      RunNext(b, before + Tens(r, n - 1), Power(r));
    }
  }

  /** The rounds are a run of the two tasks from switch-on. */
  lemma {:induction false} LivedIsRun(rounds: seq<Round>)
    ensures Run(START, EventsOf(rounds)) == Lived(rounds)
  {
    if rounds != [] {
      var n := |rounds| - 1;
      LivedIsRun(rounds[..n]);
      var before, tens := EventsOf(rounds[..n]), Tens(rounds[n].reading, 10);
      var e := Check(Status(10 * |rounds|, false, rounds[n].motorOk));
      RunTens(START, Lived(rounds[..n]), before, rounds[n].reading, 10);
      RunNext(START, before + tens, e);
    }
  }

  // ---------- ten milliseconds ----------

  lemma GoodStep(p: Pc)
    requires Sequenced(p)
    ensures var q := PowerStep(p, GOOD);
            && Sequenced(q) && q.motorDesired == p.motorDesired && q.ovMs == 0
            && Rank(q) == (if Rank(p) == 0 then 0 else Rank(p) - 1)
            && (p.cur == Powered && p.motorDesired ==> q.motor)
  {
    EnteredSequenced(p);
    EnteredRank(p);
    HandledSequenced(Entered(p), GOOD);
    GoodHandled(Entered(p));
  }

  lemma GoodHandled(p: Pc)
    requires Sequenced(p) && p.last == p.cur
    ensures Handle(p, GOOD).ovMs == 0
    ensures var q := Handle(p, GOOD);
            && Rank(q) == (if Rank(p) == 0 then 0 else Rank(p) - 1)
            && (p.cur == Powered && p.motorDesired ==> q.motor)
  {}

  /** What n good milliseconds make of p: nearer the powered stage by as many, and past it the wanted motor rail on. */
  predicate Nearer(p: Pc, q: Pc, n: nat) {
    && Sequenced(q) && q.motorDesired == p.motorDesired && (n > 0 ==> q.ovMs == 0)
    && Rank(q) == (if Rank(p) <= n then 0 else Rank(p) - n)
    && (n > Rank(p) && p.motorDesired ==> q.motor)
  }

  lemma NearerStep(p: Pc, q: Pc, n: nat)
    requires Nearer(p, q, n)
    ensures Nearer(p, PowerStep(q, GOOD), n + 1)
  {
    GoodStep(q);
    RankOfPowered(q);
  }

  lemma {:induction false} GoodHold(p: Pc, n: nat)
    requires Sequenced(p)
    ensures Nearer(p, Hold(p, GOOD, n), n)
  {
    if n > 0 {
      GoodHold(p, n - 1);
      NearerStep(p, Hold(p, GOOD, n - 1), n - 1);
    }
  }

  lemma RankOfPowered(p: Pc)
    ensures Rank(p) == 0 <==> p.cur == Powered
  {}

  lemma HighStep(p: Pc)
    requires Sequenced(p) && p.cur in {Powered, Idle}
    ensures var q := PowerStep(p, HIGH);
            && Sequenced(q) && q.motorDesired == p.motorDesired
            && (if p.cur == Powered && p.ovMs + 1 < OV_TRIP_MS
                then q.cur == Powered && q.ovMs == p.ovMs + 1 && q.motor == (p.motor || p.motorDesired)
                else q.cur == Idle)
  {
    EnteredSequenced(p);
    HandledSequenced(Entered(p), HIGH);
  }

  /** What n high milliseconds make of p: that much over-voltage, or a board shut down. */
  predicate Higher(p: Pc, q: Pc, n: nat) {
    && Sequenced(q) && q.motorDesired == p.motorDesired && q.cur in {Powered, Idle}
    && (if p.cur == Powered && p.ovMs + n < OV_TRIP_MS
        then q.cur == Powered && q.ovMs == p.ovMs + n && (p.motor ==> q.motor)
        else q.cur == Idle)
  }

  lemma HigherStep(p: Pc, q: Pc, n: nat)
    requires Higher(p, q, n)
    ensures Higher(p, PowerStep(q, HIGH), n + 1)
  {
    HighStep(q);
  }

  lemma {:induction false} HighHold(p: Pc, n: nat)
    requires Sequenced(p) && p.cur in {Powered, Idle}
    ensures Higher(p, Hold(p, HIGH, n), n)
  {
    if n > 0 {
      HighHold(p, n - 1);
      HigherStep(p, Hold(p, HIGH, n - 1), n - 1);
    }
  }

  // ---------- one round ----------

  /** No trip, the button up, and nothing recorded after now. */
  predicate Calm(b: Board, now: nat) {
    Sequenced(b.pc) && !b.policy.tripped && !b.policy.edgePrev && b.policy.enSince <= now
  }

  predicate Driving(b: Board) {
    b.pc.cur == Powered && b.pc.motor && b.pc.motorDesired
  }

  lemma {:induction false} HoldKeepsInv(b: Board, r: Reading, n: nat)
    requires Inv(b)
    ensures Inv(b.(pc := Hold(b.pc, r, n)))
  {
    if n > 0 {
      HoldKeepsInv(b, r, n - 1);
      PowerStepKeepsInv(b.(pc := Hold(b.pc, r, n - 1)), r);
    }
  }

  lemma RoundKeepsInv(b: Board, round: Round, now: nat)
    requires Inv(b)
    ensures Inv(RoundStep(b, round, now))
  {
    HoldKeepsInv(b, round.reading, 10);
    PolicyKeepsInv(b.(pc := Hold(b.pc, round.reading, 10)), Status(now, false, round.motorOk));
  }

  /** While the board is not powered a check with the button up does nothing. */
  lemma IdleCheck(b: Board, now: nat, ok: bool)
    requires Calm(b, now) && b.pc.cur != Powered
    ensures var c := PolicyTick(b, Status(now, false, ok));
            Calm(c, now) && c.pc == b.pc && Judgement(c) == Judgement(b)
  {}

  lemma PoweredCheck(b: Board, now: nat)
    requires Calm(b, now) && b.pc.cur == Powered && b.policy.lowSince == 0 && (b.pc.motor ==> b.pc.motorDesired)
    ensures var c := PolicyTick(b, Status(now, false, true));
            && Calm(c, now) && Driving(c) && c.policy.lowSince == 0 && c.pc.ovMs == b.pc.ovMs
            && (b.pc.motor ==> c.policy.enPrev && (b.policy.enPrev ==> c.policy.enSince == b.policy.enSince))
  {}

  /** The policy's timers. */
  function Judgement(b: Board): (bool, nat, nat) {
    (b.policy.enPrev, b.policy.enSince, b.policy.lowSince)
  }

  /** A good round on the way up. */
  lemma ClimbingRound(b: Board, ok: bool, now: nat)
    requires Calm(b, now) && Rank(b.pc) > 10
    ensures var c := RoundStep(b, Round(GOOD, ok), now);
            && Calm(c, now) && Rank(c.pc) == Rank(b.pc) - 10
            && c.pc.motorDesired == b.pc.motorDesired && Judgement(c) == Judgement(b)
  {
    GoodHold(b.pc, 10);
    IdleCheck(b.(pc := Hold(b.pc, GOOD, 10)), now, ok);
  }

  /** The good round that reaches the powered stage, and those after it. */
  lemma ArrivingRound(b: Board, now: nat)
    requires Calm(b, now) && Inv(b) && Rank(b.pc) <= 10 && b.policy.lowSince == 0
    ensures var c := RoundStep(b, Round(GOOD, true), now);
            && Calm(c, now) && Driving(c) && c.policy.lowSince == 0 && c.pc.ovMs == 0
            && (Rank(b.pc) < 10 && b.pc.motorDesired ==> c.policy.enPrev)
  {
    var h := b.(pc := Hold(b.pc, GOOD, 10));
    assert Inv(h) by {
      HoldKeepsInv(b, GOOD, 10);
    }
    GoodHold(b.pc, 10);
    RankOfPowered(h.pc);
    PoweredCheck(h, now);
  }

  /** A round of high supply, not long enough yet. */
  lemma HighRound(b: Board, now: nat)
    requires Calm(b, now) && Driving(b) && b.pc.ovMs + 10 < OV_TRIP_MS && b.policy.enPrev && b.policy.lowSince == 0
    ensures var c := RoundStep(b, Round(HIGH, true), now);
            && Calm(c, now) && Driving(c) && c.pc.ovMs == b.pc.ovMs + 10
            && c.policy.enPrev && c.policy.enSince == b.policy.enSince && c.policy.lowSince == 0
  {
    HighHold(b.pc, 10);
    PoweredCheck(b.(pc := Hold(b.pc, HIGH, 10)), now);
  }

  lemma LowCheck(b: Board, now: nat)
    requires Calm(b, now) && Driving(b) && b.policy.enPrev && b.policy.lowSince == 0
    requires now > 0 && now - b.policy.enSince >= PGD_SETTLE_MS
    ensures var c := PolicyTick(b, Status(now, false, false));
            && Calm(c, now) && c.pc == b.pc && Judgement(c) == (true, b.policy.enSince, now)
  {}

  /** The same, with the rail's power-good low at its end. */
  lemma LowRound(b: Board, now: nat)
    requires Calm(b, now) && Driving(b) && b.pc.ovMs + 10 < OV_TRIP_MS && b.policy.enPrev && b.policy.lowSince == 0
    requires now > 0 && now - b.policy.enSince >= PGD_SETTLE_MS
    ensures var c := RoundStep(b, Round(HIGH, false), now);
            && Calm(c, now) && Driving(c) && c.pc.ovMs == b.pc.ovMs + 10
            && Judgement(c) == (true, b.policy.enSince, now)
  {
    HighHold(b.pc, 10);
    LowCheck(b.(pc := Hold(b.pc, HIGH, 10)), now);
  }

  /** Rounds of high supply once it has lasted too long, or with the board already shut down. */
  lemma ShutRound(b: Board, ok: bool, now: nat)
    requires Calm(b, now) && (b.pc.cur == Idle || (b.pc.cur == Powered && b.pc.ovMs + 10 >= OV_TRIP_MS))
    ensures var c := RoundStep(b, Round(HIGH, ok), now);
            && Calm(c, now) && c.pc.cur == Idle
            && c.pc.motorDesired == b.pc.motorDesired && Judgement(c) == Judgement(b)
  {
    HighHold(b.pc, 10);
    IdleCheck(b.(pc := Hold(b.pc, HIGH, 10)), now, ok);
  }

  lemma StaleCheck(b: Board, now: nat)
    requires Calm(b, now) && b.pc.cur == Powered && b.pc.motor
    requires b.policy.enPrev && now - b.policy.enSince >= PGD_SETTLE_MS
    requires b.policy.lowSince != 0 && now - b.policy.lowSince >= PGD_DEBOUNCE_MS
    ensures PolicyTick(b, Status(now, false, false)).policy.tripped
  {}

  /** The round that reaches the powered stage again, with timers from before. */
  lemma StaleRound(b: Board, now: nat)
    requires Calm(b, now) && 0 < Rank(b.pc) < 10 && b.pc.motorDesired
    requires b.policy.enPrev && now - b.policy.enSince >= PGD_SETTLE_MS
    requires b.policy.lowSince != 0 && now - b.policy.lowSince >= PGD_DEBOUNCE_MS
    ensures RoundStep(b, Round(GOOD, false), now).policy.tripped
  {
    GoodHold(b.pc, 10);
    var h := b.(pc := Hold(b.pc, GOOD, 10));
    RankOfPowered(h.pc);
    StaleCheck(h, now);
  }

  // ---------- the life ----------

  lemma LivedNext(rounds: seq<Round>, round: Round)
    ensures Lived(rounds + [round]) == RoundStep(Lived(rounds), round, 10 * (|rounds| + 1))
  {
    assert (rounds + [round])[..|rounds|] == rounds;
  }

  /** Eleven good rounds after n. */
  lemma {:induction false} Climbs(start: seq<Round>, ok: bool, n: nat) returns (rounds: seq<Round>)
    requires n <= 11
    requires var b := Lived(start); Calm(b, 10 * |start|) && Rank(b.pc) > 110
    ensures |rounds| == |start| + n
    ensures var b, c := Lived(start), Lived(rounds);
            && Calm(c, 10 * |rounds|) && Rank(c.pc) == Rank(b.pc) - 10 * n
            && c.pc.motorDesired == b.pc.motorDesired && Judgement(c) == Judgement(b)
  {
    if n == 0 {
      return start;
    }
    rounds := Climbs(start, ok, n - 1);
    var b := Lived(rounds);
    LivedNext(rounds, Round(GOOD, ok));
    rounds := rounds + [Round(GOOD, ok)];
    ClimbingRound(b, ok, 10 * |rounds|);
  }

  lemma {:induction false} LivedInv(rounds: seq<Round>)
    ensures Inv(Lived(rounds))
  {
    if rounds != [] {
      var n := |rounds| - 1;
      LivedInv(rounds[..n]);
      RoundKeepsInv(Lived(rounds[..n]), rounds[n], 10 * |rounds|);
    }
  }

  lemma Arrives(start: seq<Round>) returns (rounds: seq<Round>)
    requires var b := Lived(start); Calm(b, 10 * |start|) && Rank(b.pc) <= 10 && b.policy.lowSince == 0
    ensures |rounds| == |start| + 1
    ensures var b, c := Lived(start), Lived(rounds);
            && Calm(c, 10 * |rounds|) && Driving(c) && c.policy.lowSince == 0 && c.pc.ovMs == 0
            && (Rank(b.pc) < 10 && b.pc.motorDesired ==> c.policy.enPrev)
  {
    rounds := start + [Round(GOOD, true)];
    LivedInv(start);
    LivedNext(start, Round(GOOD, true));
    ArrivingRound(Lived(start), 10 * |rounds|);
  }

  lemma {:induction false} Rises(start: seq<Round>, n: nat) returns (rounds: seq<Round>)
    requires n < 500
    requires var b := Lived(start);
             Calm(b, 10 * |start|) && Driving(b) && b.pc.ovMs == 0 && b.policy.enPrev && b.policy.lowSince == 0
    ensures |rounds| == |start| + n
    ensures var b, c := Lived(start), Lived(rounds);
            && Calm(c, 10 * |rounds|) && Driving(c) && c.pc.ovMs == 10 * n
            && Judgement(c) == (true, b.policy.enSince, 0)
  {
    if n == 0 {
      return start;
    }
    rounds := Rises(start, n - 1);
    var b := Lived(rounds);
    LivedNext(rounds, Round(HIGH, true));
    rounds := rounds + [Round(HIGH, true)];
    HighRound(b, 10 * |rounds|);
  }

  lemma Dips(start: seq<Round>) returns (rounds: seq<Round>)
    requires var b := Lived(start);
             && Calm(b, 10 * |start|) && Driving(b) && b.pc.ovMs == 4980
             && b.policy.enPrev && b.policy.lowSince == 0 && 10 * |start| - b.policy.enSince >= PGD_SETTLE_MS
    ensures |rounds| == |start| + 1
    ensures var b, c := Lived(start), Lived(rounds);
            && Calm(c, 10 * |rounds|) && Driving(c) && c.pc.ovMs == 4990
            && Judgement(c) == (true, b.policy.enSince, 10 * |rounds|)
  {
    rounds := start + [Round(HIGH, false)];
    LivedNext(start, Round(HIGH, false));
    LowRound(Lived(start), 10 * |rounds|);
  }

  lemma {:induction false} Shuts(start: seq<Round>, n: nat) returns (rounds: seq<Round>)
    requires n > 0
    requires var b := Lived(start); Calm(b, 10 * |start|) && Driving(b) && b.pc.ovMs == 4990
    ensures |rounds| == |start| + n
    ensures var b, c := Lived(start), Lived(rounds);
            && Calm(c, 10 * |rounds|) && c.pc.cur == Idle && c.pc.motorDesired && Judgement(c) == Judgement(b)
  {
    rounds := start;
    if n > 1 {
      rounds := Shuts(start, n - 1);
    }
    var b := Lived(rounds);
    LivedNext(rounds, Round(HIGH, true));
    rounds := rounds + [Round(HIGH, true)];
    ShutRound(b, true, 10 * |rounds|);
  }

  lemma StartIsCalm()
    ensures Calm(Lived([]), 0) && Rank(Lived([]).pc) == 112 && Lived([]).policy.lowSince == 0
  {}

  lemma StartsUp() returns (rounds: seq<Round>)
    ensures |rounds| == 13
    ensures var b := Lived(rounds);
            && Calm(b, 130) && Driving(b) && b.pc.ovMs == 0 && b.policy.enPrev && b.policy.lowSince == 0
  {
    StartIsCalm();
    rounds := Climbs([], true, 11);
    rounds := Arrives(rounds);
    rounds := Arrives(rounds);
  }

  /** Up, on, five seconds of high supply with the rail's power-good lost at the very end, and down. */
  lemma ShutsDownWithTimersSet() returns (rounds: seq<Round>)
    ensures |rounds| == 533
    ensures var b := Lived(rounds);
            && Calm(b, 5330) && b.pc.cur == Idle && b.pc.motorDesired
            && b.policy.enPrev && b.policy.enSince <= 130 && b.policy.lowSince == 5120
  {
    rounds := StartsUp();
    rounds := Rises(rounds, 498);
    rounds := Dips(rounds);
    rounds := Shuts(rounds, 21);
  }

  /**
    A life on the board's own schedule in which the first check after an over-voltage restart trips: before it
    the board is not powered, in its ten milliseconds the motor rail comes on, and at its end the rail has
    been on for a few milliseconds and is already judged lost.
  */
  lemma RestartSkipsTheWindow() returns (rounds: seq<Round>)
    ensures var b := Lived(rounds); b.pc.cur != Powered && !b.pc.motor && !b.policy.tripped
    ensures Lived(rounds + [Round(GOOD, false)]).policy.tripped
    ensures Run(START, EventsOf(rounds + [Round(GOOD, false)])) == Lived(rounds + [Round(GOOD, false)])
  {
    rounds := ShutsDownWithTimersSet();
    rounds := Climbs(rounds, true, 11);
    var b := Lived(rounds);
    RankOfPowered(b.pc);
    LivedNext(rounds, Round(GOOD, false));
    StaleRound(b, 10 * (|rounds| + 1));
    LivedIsRun(rounds + [Round(GOOD, false)]);
  }
}

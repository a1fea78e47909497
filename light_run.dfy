/**
 * A running light on lamps O1..O6.
 *
 * The lamps are lit one at a time, upwards from O1 to O6 and then
 * downwards from O6 to O1, each for `wait` milliseconds, with a pause of
 * `wait` milliseconds at the top and 1 second at the bottom. Each round
 * halves `wait` (200, 100, 50 ms); the program stops after the third round.
 *
 * PrgTic reads the system time and runs a `while (1)` around the stage
 * switch: a `continue` re-enters the switch in the same tick (to light the
 * next lamp at once), PAUSE_1 falls through into ON_2, and every other
 * path returns. `Pass` is one pass through the switch, `Run` follows the
 * `continue`s, and the class `LightRun` performs the same loop in place.
 */
module LightRun {
  import opened Robo

  const BEG_LAMP_IDX: int := 0
  const END_LAMP_IDX: int := 5
  const ROUNDS: int := 3
  const FIRST_WAIT: int := 200
  /** The bottom pause, in milliseconds. */
  const BOTTOM_PAUSE: int := 1000

  datatype Stage = On1 | Pause1 | On2 | Pause2

  /**
   * The program's statics and its PWM outputs. `prevTime` is the time the
   * current lamp or pause started, 0 while the current lamp is not yet lit.
   */
  datatype State = State(
    stage: Stage,
    curTime: uint32,
    prevTime: uint32,
    lampIdx: int,
    nLoops: int,
    wait: int,
    duty: seq<int>)

  predicate Valid(s: State)
  {
    && |s.duty| == N_PWM_CHAN
    && BEG_LAMP_IDX <= s.lampIdx <= END_LAMP_IDX
    && s.wait >= 0
  }

  /** Every lamp but the current one is off: so at most one lamp is on. */
  predicate OthersOff(s: State)
    requires Valid(s)
  {
    forall i :: BEG_LAMP_IDX <= i <= END_LAMP_IDX && i != s.lampIdx ==> s.duty[i] == LIGHT_OFF
  }

  /** The number of lamps that are on. */
  function LampsOn(duty: seq<int>, n: nat): nat
    requires n <= |duty|
  {
    if n == 0 then 0 else LampsOn(duty, n - 1) + (if duty[n - 1] == LIGHT_ON then 1 else 0)
  }

  /** `cur_time - prev_time` on unsigned 32-bit values. */
  function Elapsed(cur: uint32, prev: uint32): uint32
  {
    Wrap32(cur - prev)
  }

  /** How one pass through the switch ends: a `return rc`, or a `continue`. */
  datatype PassEnd = Return(state: State, rc: int) | Continue(state: State)

  /** The case ON_1 (`up`) or ON_2 (not `up`) for the current lamp. */
  function Lamp(s: State, up: bool): (r: PassEnd)
    requires Valid(s)
    ensures Valid(r.state)
    ensures OthersOff(s) ==> OthersOff(r.state)
    ensures r.Continue? ==> r.state.prevTime == 0 && r.state.stage == s.stage
  {
    if s.prevTime == 0 then
      Return(s.(duty := s.duty[s.lampIdx := LIGHT_ON], prevTime := s.curTime), RC_CONTINUE)
    else if Elapsed(s.curTime, s.prevTime) >= s.wait then
      var off := s.duty[s.lampIdx := LIGHT_OFF];
      if up && s.lampIdx + 1 <= END_LAMP_IDX then
        Continue(s.(duty := off, prevTime := 0, lampIdx := s.lampIdx + 1))
      else if !up && s.lampIdx - 1 >= BEG_LAMP_IDX then
        Continue(s.(duty := off, prevTime := 0, lampIdx := s.lampIdx - 1))
      else
        Return(s.(duty := off, prevTime := s.curTime, stage := if up then Pause1 else Pause2), RC_CONTINUE)
    else
      Return(s, RC_CONTINUE)
  }

  /** One pass through the switch, from the label of the current stage. */
  function Pass(s: State): (r: PassEnd)
    requires Valid(s)
    ensures Valid(r.state)
    ensures OthersOff(s) ==> OthersOff(r.state)
    ensures r.Continue? ==> Measure(r.state) < Measure(s)
  {
    match s.stage
    case On1 => Lamp(s, true)
    case Pause1 =>
      if Elapsed(s.curTime, s.prevTime) >= s.wait then Lamp(s.(prevTime := 0, stage := On2), false)
      else Return(s, RC_CONTINUE)
    case On2 => Lamp(s, false)
    case Pause2 =>
      if Elapsed(s.curTime, s.prevTime) >= BOTTOM_PAUSE then
        if s.nLoops - 1 <= 0 then Return(s.(nLoops := s.nLoops - 1), RC_STOP)
        else Continue(s.(nLoops := s.nLoops - 1, wait := s.wait / 2, prevTime := 0, stage := On1))
      else Return(s, RC_CONTINUE)
  }

  /** 0 once a pass is bound to return: a lamp stage whose lamp is not yet lit. */
  function Measure(s: State): nat
  {
    if s.prevTime == 0 && s.stage in {On1, On2} then 0 else 1
  }

  /** Passes through the switch until one returns. */
  function Run(s: State): (r: PassEnd)
    requires Valid(s)
    ensures r.Return? && Valid(r.state)
    ensures OthersOff(s) ==> OthersOff(r.state)
    decreases Measure(s)
  {
    match Pass(s)
    case Return(t, rc) => Return(t, rc)
    case Continue(t) => Run(t)
  }

  /**
   * The `while (1)` of a tick makes at most two passes through the switch:
   * a pass that continues leaves a lamp stage with the lamp not yet lit,
   * and the pass from there returns.
   */
  lemma AtMostTwoPasses(s: State)
    requires Valid(s)
    ensures Run(s) == (if Pass(s).Continue? then Pass(Pass(s).state) else Pass(s))
  {
    if Pass(s).Continue? {
      var t := Pass(s).state;
      assert Measure(t) == 0;
      assert Pass(t).Return?;
    }
  }

  /** One PrgTic call at system time `now`. */
  function Step(s: State, now: uint32): (r: PassEnd)
    requires Valid(s)
    ensures r.Return? && Valid(r.state)
    ensures OthersOff(s) ==> OthersOff(r.state)
  {
    Run(s.(curTime := now))
  }

  /** The statics and outputs before PrgInit: zero-initialised. */
  const Zero: State := State(On1, 0, 0, 0, 0, 0, seq(N_PWM_CHAN, _ => 0))

  /** PrgInit. */
  function Init(s: State): (t: State)
    ensures |s.duty| == N_PWM_CHAN ==> Valid(t) && RoundInvariant(t)
    ensures t.stage == On1 && t.prevTime == 0 && t.duty == s.duty
  {
    s.(prevTime := 0, stage := On1, lampIdx := BEG_LAMP_IDX, nLoops := ROUNDS, wait := FIRST_WAIT)
  }

  /** The wait of the round in which `nLoops` rounds are left, counting this one: 200, 100, 50. */
  function WaitOfRound(nLoops: int): int
  {
    if nLoops >= ROUNDS then FIRST_WAIT
    else if nLoops == 2 then FIRST_WAIT / 2
    else FIRST_WAIT / 4
  }

  /** The round bookkeeping of a running program: 1..3 rounds left, with the wait of that round. */
  predicate RoundInvariant(s: State)
  {
    1 <= s.nLoops <= ROUNDS && s.wait == WaitOfRound(s.nLoops)
  }

  // ---------------------------------------------------------------------
  // Properties

  lemma InitSetsUp(s: State)
    requires |s.duty| == N_PWM_CHAN
    ensures var t := Init(s);
      && t.stage == On1 && t.lampIdx == 0 && t.nLoops == 3 && t.wait == 200 && t.prevTime == 0
      && Valid(t) && RoundInvariant(t)
  {
  }

  /** With all outputs initially off, PrgInit's state satisfies the one-lamp invariant. */
  lemma ZeroLampsOff()
    ensures Valid(Init(Zero)) && OthersOff(Init(Zero))
  {
  }

  /** The lamp index stays within O1..O6 and at most one lamp is on, tick after tick. */
  lemma StepKeepsLampsInvariant(s: State, now: uint32)
    requires Valid(s) && OthersOff(s)
    ensures Valid(Step(s, now).state) && OthersOff(Step(s, now).state)
  {
  }

  /** The one-lamp invariant means no more than one of O1..O6 is on. */
  lemma OthersOffMeansAtMostOne(s: State)
    requires Valid(s) && OthersOff(s)
    ensures LampsOn(s.duty, END_LAMP_IDX + 1) <= 1
  {
    var n := END_LAMP_IDX + 1;
    LampsOnBound(s.duty, s.lampIdx, n);
  }

  lemma {:induction false} LampsOnBound(duty: seq<int>, k: int, n: nat)
    requires n <= |duty| && 0 <= k
    requires forall i :: 0 <= i < n && i != k ==> duty[i] != LIGHT_ON
    ensures LampsOn(duty, n) <= (if k < n then 1 else 0)
  {
    if n > 0 {
      LampsOnBound(duty, k, n - 1);
    }
  }

  /**
   * ON_1 walks upward: when the current lamp's time is up it goes off; the
   * next lamp is lit in the same tick, or after O6 the program enters
   * PAUSE_1, remembering the time.
   */
  lemma On1Walks(s: State, now: uint32)
    requires Valid(s) && s.stage == On1 && s.prevTime != 0
    requires Elapsed(now, s.prevTime) >= s.wait
    ensures var t := Step(s, now).state;
      && t.duty[s.lampIdx] == LIGHT_OFF && Step(s, now).rc == RC_CONTINUE
      && (s.lampIdx < END_LAMP_IDX ==>
            t.stage == On1 && t.lampIdx == s.lampIdx + 1 && t.duty[t.lampIdx] == LIGHT_ON && t.prevTime == now)
      && (s.lampIdx == END_LAMP_IDX ==> t.stage == Pause1 && t.lampIdx == s.lampIdx && t.prevTime == now)
    {
    AtMostTwoPasses(s.(curTime := now));
  }

  /**
   * ON_2 walks downward: when the current lamp's time is up it goes off; the
   * previous lamp is lit in the same tick, or after O1 the program enters
   * PAUSE_2, remembering the time.
   */
  lemma On2Walks(s: State, now: uint32)
    requires Valid(s) && s.stage == On2 && s.prevTime != 0
    requires Elapsed(now, s.prevTime) >= s.wait
    ensures var t := Step(s, now).state;
      && t.duty[s.lampIdx] == LIGHT_OFF && Step(s, now).rc == RC_CONTINUE
      && (s.lampIdx > BEG_LAMP_IDX ==>
            t.stage == On2 && t.lampIdx == s.lampIdx - 1 && t.duty[t.lampIdx] == LIGHT_ON && t.prevTime == now)
      && (s.lampIdx == BEG_LAMP_IDX ==> t.stage == Pause2 && t.lampIdx == s.lampIdx && t.prevTime == now)
    {
    AtMostTwoPasses(s.(curTime := now));
  }

  /** While the current lamp's time is not up, a lamp stage changes nothing but the time read. */
  lemma LampHolds(s: State, now: uint32)
    requires Valid(s) && s.stage in {On1, On2} && s.prevTime != 0
    requires Elapsed(now, s.prevTime) < s.wait
    ensures Step(s, now) == Return(s.(curTime := now), RC_CONTINUE)
  {
  }

  /** PAUSE_1 ends once `wait` ms have passed: the top lamp O6 is lit again and ON_2 begins. */
  lemma Pause1Ends(s: State, now: uint32)
    requires Valid(s) && s.stage == Pause1
    ensures var o := Step(s, now);
      && o.rc == RC_CONTINUE
      && (Elapsed(now, s.prevTime) >= s.wait ==>
            o.state.stage == On2 && o.state.duty[s.lampIdx] == LIGHT_ON && o.state.prevTime == now)
      && (Elapsed(now, s.prevTime) < s.wait ==> o.state == s.(curTime := now))
  {
  }

  /**
   * PAUSE_2 ends once 1 second has passed: one round fewer is left; the
   * program stops when none is, and otherwise starts the next round at
   * half the wait, lighting the current lamp at once.
   */
  lemma Pause2Ends(s: State, now: uint32)
    requires Valid(s) && s.stage == Pause2
    ensures var o := Step(s, now);
      && (o.rc == RC_STOP <==> Elapsed(now, s.prevTime) >= BOTTOM_PAUSE && s.nLoops <= 1)
      && (Elapsed(now, s.prevTime) >= BOTTOM_PAUSE ==> o.state.nLoops == s.nLoops - 1)
      && (Elapsed(now, s.prevTime) >= BOTTOM_PAUSE && s.nLoops > 1 ==>
            o.state.stage == On1 && o.state.wait == s.wait / 2 && o.state.duty[s.lampIdx] == LIGHT_ON
            && o.state.prevTime == now)
      && (Elapsed(now, s.prevTime) < BOTTOM_PAUSE ==> o == Return(s.(curTime := now), RC_CONTINUE))
    {
    AtMostTwoPasses(s.(curTime := now));
  }

  /**
   * Only the end of PAUSE_2 counts a round, and the tick returns STOP
   * exactly when it counts the last one; while the program runs, the round
   * count and the wait keep to the schedule 3/200, 2/100, 1/50.
   */
  lemma RoundsCountDown(s: State, now: uint32)
    requires Valid(s) && RoundInvariant(s)
    ensures var o := Step(s, now);
      && (o.rc == RC_STOP || o.rc == RC_CONTINUE)
      && (o.state.nLoops == s.nLoops || (s.stage == Pause2 && o.state.nLoops == s.nLoops - 1))
      && (o.rc == RC_STOP <==> s.stage == Pause2 && o.state.nLoops == 0)
      && (o.rc == RC_CONTINUE ==> RoundInvariant(o.state))
    {
    AtMostTwoPasses(s.(curTime := now));
  }

  // ---------------------------------------------------------------------
  // The program's statics and outputs, updated in place

  class LightRun {
    var stage: Stage
    var curTime: uint32
    var prevTime: uint32
    var lampIdx: int
    var nLoops: int
    var wait: int
    /** output.duty: the PWM duty of each output channel. */
    const duty: array<int>

    function Snapshot(): State
      reads this, duty
    {
      State(stage, curTime, prevTime, lampIdx, nLoops, wait, duty[..])
    }

    constructor ()
      ensures Snapshot() == Zero && duty.Length == N_PWM_CHAN
    {
      stage, curTime, prevTime := On1, 0, 0;
      lampIdx, nLoops, wait := 0, 0, 0;
      duty := new int[N_PWM_CHAN](_ => 0);
    }

    method PrgInit()
      modifies this
      ensures Snapshot() == Init(old(Snapshot()))
    {
      prevTime := 0;
      stage := On1;
      lampIdx := BEG_LAMP_IDX;
      nLoops := ROUNDS;
      wait := FIRST_WAIT;
    }

    /** PrgTic at system time `now`: the `while (1)` loop around the switch. */
    method PrgTic(now: uint32) returns (rc: int)
      requires Valid(Snapshot())
      modifies this, duty
      ensures Step(old(Snapshot()), now) == Return(Snapshot(), rc)
    {
      curTime := now;
      ghost var goal := Run(Snapshot());
      while true
        invariant Valid(Snapshot()) && Run(Snapshot()) == goal
        decreases Measure(Snapshot())
      {
        var cont;
        cont, rc := PassOnce();
        if !cont {
          return;
        }
      }
    }

    /** One pass through the switch, from the label of the current stage. */
    method PassOnce() returns (cont: bool, rc: int)
      requires Valid(Snapshot())
      modifies this, duty
      ensures Pass(old(Snapshot())) == (if cont then Continue(Snapshot()) else Return(Snapshot(), rc))
    {
      match stage
      case On1 =>
        cont, rc := On1Case();
      case Pause1 =>
        cont, rc := Pause1Case();
      case On2 =>
        cont, rc := On2Case();
      case Pause2 =>
        cont, rc := Pause2Case();
    }

    /** ON_1: light the lamp, or after `wait` switch it off and go on upwards, or pause at the top. */
    method On1Case() returns (cont: bool, rc: int)
      requires Valid(Snapshot())
      modifies this, duty
      ensures Lamp(old(Snapshot()), true) == (if cont then Continue(Snapshot()) else Return(Snapshot(), rc))
    {
      cont, rc := false, RC_CONTINUE;
      if prevTime == 0 {
        duty[lampIdx] := LIGHT_ON;
        prevTime := curTime;
      } else if Elapsed(curTime, prevTime) >= wait {
        duty[lampIdx] := LIGHT_OFF;
        if lampIdx + 1 <= END_LAMP_IDX {
          prevTime := 0;
          lampIdx := lampIdx + 1;
          cont := true;
        } else {
          prevTime := curTime;
          stage := Pause1;
        }
      }
    }

    /** PAUSE_1: after `wait`, fall through into ON_2. */
    method Pause1Case() returns (cont: bool, rc: int)
      requires Valid(Snapshot())
      modifies this, duty
      ensures Pass(old(Snapshot())) == (if cont then Continue(Snapshot()) else Return(Snapshot(), rc))
      requires stage == Pause1
    {
      cont, rc := false, RC_CONTINUE;
      if Elapsed(curTime, prevTime) >= wait {
        prevTime := 0;
        stage := On2;
        cont, rc := On2Case();
      }
    }

    /** ON_2: light the lamp, or after `wait` switch it off and go on downwards, or pause at the bottom. */
    method On2Case() returns (cont: bool, rc: int)
      requires Valid(Snapshot())
      modifies this, duty
      ensures Lamp(old(Snapshot()), false) == (if cont then Continue(Snapshot()) else Return(Snapshot(), rc))
    {
      cont, rc := false, RC_CONTINUE;
      if prevTime == 0 {
        duty[lampIdx] := LIGHT_ON;
        prevTime := curTime;
      } else if Elapsed(curTime, prevTime) >= wait {
        duty[lampIdx] := LIGHT_OFF;
        if lampIdx - 1 >= BEG_LAMP_IDX {
          prevTime := 0;
          lampIdx := lampIdx - 1;
          cont := true;
        } else {
          prevTime := curTime;
          stage := Pause2;
        }
      }
    }

    /** PAUSE_2: after the bottom pause, end the round: stop after the last, else halve `wait` and start again. */
    method Pause2Case() returns (cont: bool, rc: int)
      requires Valid(Snapshot())
      modifies this, duty
      ensures Pass(old(Snapshot())) == (if cont then Continue(Snapshot()) else Return(Snapshot(), rc))
      requires stage == Pause2
    {
      cont, rc := false, RC_CONTINUE;
      if Elapsed(curTime, prevTime) >= BOTTOM_PAUSE {
        nLoops := nLoops - 1;
        if nLoops <= 0 {
          rc := RC_STOP;
        } else {
          wait := wait / 2;
          prevTime := 0;
          stage := On1;
          cont := true;
        }
      }
    }
  }
}

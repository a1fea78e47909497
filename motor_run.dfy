/**
 * A motor ramp on output M1.
 *
 * The motor turns in the first direction at a duty that grows by a
 * quarter of DUTY_MAX every 2 seconds up to DUTY_MAX, pauses for 2
 * seconds, turns in the second direction at a duty that shrinks by a
 * quarter every 2 seconds, and stops once the duty reaches 0.
 *
 * PrgTic runs a `while (1)` around the stage switch: a `continue` starts
 * the next duty step in the same tick, and the end of a stage falls through
 * into the next one. `Pass` is one pass through the switch (the case
 * functions call the next case where the switch falls through), `Run`
 * follows the `continue`s, and the class `MotorRun` performs the same loop.
 */
module MotorRun {
  import opened Robo

  /** Duration of every duty step and of the pause, in ticks. */
  const PERIOD: nat := 2000
  /** The change of the duty at every step. */
  const DUTY_STEP: int := DUTY_MAX / 4

  datatype Stage = Direction1 | Pause | Direction2 | Off

  /** The program's statics and motor M1's two PWM channels (`output[0]`, `output[1]`). */
  datatype State = State(timer: nat, stage: Stage, duty: int, output: seq<int>)

  predicate Valid(s: State)
  {
    |s.output| == N_PWM_CHAN
  }

  /** Motor M1 is never driven in both directions at once. */
  predicate OneDirection(s: State)
    requires Valid(s)
  {
    s.output[0] == 0 || s.output[1] == 0
  }

  /** How one pass through the switch ends: a `return rc`, or a `continue`. */
  datatype PassEnd = Return(state: State, rc: int) | Continue(state: State)

  /** Both channels of motor M1 set: `first` on channel 0 and `second` on channel 1. */
  function Drive(s: State, first: int, second: int): (t: State)
    requires Valid(s)
    ensures Valid(t) && t.output[0] == first && t.output[1] == second
    ensures forall i :: 2 <= i < N_PWM_CHAN ==> t.output[i] == s.output[i]
    ensures t.timer == s.timer && t.stage == s.stage && t.duty == s.duty
  {
    s.(output := s.output[0 := first][1 := second])
  }

  /** OFF: both channels of motor M1 off, and the program stops. */
  function CaseOff(s: State): (r: PassEnd)
    requires Valid(s)
    ensures Valid(r.state) && OneDirection(r.state)
    ensures r.Return? && r.rc == RC_STOP
    ensures r.state.output[0] == 0 && r.state.output[1] == 0
    ensures forall i :: 2 <= i < N_PWM_CHAN ==> r.state.output[i] == s.output[i]
    ensures r.state.timer == s.timer && r.state.stage == s.stage && r.state.duty == s.duty
  {
    Return(Drive(s, 0, 0), RC_STOP)
  }

  function CaseDirection2(s: State): (r: PassEnd)
    requires Valid(s)
    ensures Valid(r.state)
    ensures OneDirection(s) ==> OneDirection(r.state)
  {
    var driven := if s.timer == 0 then Drive(s, 0, s.duty) else s;
    var t := driven.(timer := s.timer + 1);
    if t.timer >= PERIOD then
      var duty := s.duty - DUTY_STEP;
      if duty <= 0 then CaseOff(t.(duty := duty, stage := Off))
      else Continue(t.(duty := duty, timer := 0))
    else Return(t, RC_CONTINUE)
  }

  function CasePause(s: State): (r: PassEnd)
    requires Valid(s)
    ensures Valid(r.state)
    ensures OneDirection(s) ==> OneDirection(r.state)
  {
    var stopped := if s.timer == 0 then Drive(s, 0, 0) else s;
    var t := stopped.(timer := s.timer + 1);
    if t.timer >= PERIOD then CaseDirection2(t.(stage := Direction2, timer := 0))
    else Return(t, RC_CONTINUE)
  }

  function CaseDirection1(s: State): (r: PassEnd)
    requires Valid(s)
    ensures Valid(r.state)
    ensures OneDirection(s) ==> OneDirection(r.state)
  {
    var driven := if s.timer == 0 then Drive(s.(duty := s.duty + DUTY_STEP), s.duty + DUTY_STEP, 0) else s;
    var t := driven.(timer := s.timer + 1);
    if t.timer >= PERIOD then
      if t.duty >= DUTY_MAX then CasePause(t.(timer := 0, stage := Pause))
      else Continue(t.(timer := 0))
    else Return(t, RC_CONTINUE)
  }

  /** One pass through the switch, from the label of the current stage. */
  function Pass(s: State): (r: PassEnd)
    requires Valid(s)
    ensures Valid(r.state)
    ensures OneDirection(s) ==> OneDirection(r.state)
    ensures r.Continue? ==> Measure(r.state) < Measure(s)
  {
    match s.stage
    case Direction1 => CaseDirection1(s)
    case Pause => CasePause(s)
    case Direction2 => CaseDirection2(s)
    case Off => CaseOff(s)
  }

  /** 0 once a pass is bound to return: the start of a duty step. */
  function Measure(s: State): nat
  {
    if s.timer == 0 && s.stage in {Direction1, Direction2} then 0 else 1
  }

  /** Passes through the switch until one returns. */
  function Run(s: State): (r: PassEnd)
    requires Valid(s)
    ensures r.Return? && Valid(r.state)
    ensures OneDirection(s) ==> OneDirection(r.state)
    decreases Measure(s)
  {
    match Pass(s)
    case Return(t, rc) => Return(t, rc)
    case Continue(t) => Run(t)
  }

  /** One PrgTic call. */
  function Step(s: State): (r: PassEnd)
    requires Valid(s)
    ensures r.Return? && Valid(r.state)
    ensures OneDirection(s) ==> OneDirection(r.state)
  {
    Run(s)
  }

  /** A tick's loop makes at most two passes: a `continue` starts a duty step, whose pass returns. */
  lemma AtMostTwoPasses(s: State)
    requires Valid(s)
    ensures Run(s) == (if Pass(s).Continue? then Pass(Pass(s).state) else Pass(s))
  {
    if Pass(s).Continue? {
      var t := Pass(s).state;
      assert Measure(t) == 0;
      assert Pass(t).Return?;
    }
  }

  const Zero: State := State(0, Direction1, 0, seq(N_PWM_CHAN, _ => 0))

  /** PrgInit: motor off, the ramp starts in the first direction from duty 0. */
  function Init(s: State): (t: State)
    requires Valid(s)
    ensures Valid(t) && OneDirection(t) && t.stage == Direction1 && t.timer == 0 && t.duty == 0
  {
    Drive(s, 0, 0).(timer := 0, stage := Direction1, duty := 0)
  }

  function Rank(st: Stage): nat
  {
    match st
    case Direction1 => 0
    case Pause => 1
    case Direction2 => 2
    case Off => 3
  }

  // ---------------------------------------------------------------------
  // Properties

  lemma InitStopsMotor(s: State)
    requires Valid(s)
    ensures var t := Init(s);
      && t.output[0] == 0 && t.output[1] == 0 && t.timer == 0 && t.duty == 0 && t.stage == Direction1
      && (forall i :: 2 <= i < N_PWM_CHAN ==> t.output[i] == s.output[i])
      && OneDirection(t)
  {
  }

  /**
   * At the start of a step in the first direction the duty grows by a
   * quarter of DUTY_MAX and drives channel 0, with channel 1 off.
   */
  lemma Direction1StepStarts(s: State)
    requires Valid(s) && s.stage == Direction1 && s.timer == 0
    ensures Step(s) == Return(Drive(s, s.duty + DUTY_STEP, 0).(duty := s.duty + DUTY_STEP, timer := 1), RC_CONTINUE)
  {
  }

  /**
   * Within a step (or the pause) a tick only counts; at the 2000th tick of
   * a step in the first direction the next step starts, or the pause once
   * the duty has reached DUTY_MAX.
   */
  lemma Direction1Steps(s: State)
    requires Valid(s) && s.stage == Direction1 && s.timer > 0
    ensures var o := Step(s);
      && o.rc == RC_CONTINUE
      && (s.timer + 1 < PERIOD ==> o.state == s.(timer := s.timer + 1))
      && (s.timer + 1 >= PERIOD && s.duty < DUTY_MAX ==>
            o.state == Drive(s, s.duty + DUTY_STEP, 0).(duty := s.duty + DUTY_STEP, timer := 1))
      && (s.timer + 1 >= PERIOD && s.duty >= DUTY_MAX ==>
            o.state == Drive(s, 0, 0).(stage := Pause, timer := 1))
  {
    AtMostTwoPasses(s);
  }

  /** The pause holds both channels off for 2000 ticks, then drives channel 1 at the duty. */
  lemma PauseHolds(s: State)
    requires Valid(s) && s.stage == Pause
    ensures var o := Step(s);
      && o.rc == RC_CONTINUE
      && (s.timer == 0 ==> o.state == Drive(s, 0, 0).(timer := 1))
      && (0 < s.timer && s.timer + 1 < PERIOD ==> o.state == s.(timer := s.timer + 1))
      && (0 < s.timer && s.timer + 1 >= PERIOD ==> o.state == Drive(s, 0, s.duty).(stage := Direction2, timer := 1))
  {
  }

  /**
   * In the second direction channel 1 carries the duty and channel 0 is
   * off; at the 2000th tick of a step the duty drops by a quarter of
   * DUTY_MAX, and once it is no longer positive the motor stops and the
   * program ends.
   */
  lemma Direction2Steps(s: State)
    requires Valid(s) && s.stage == Direction2
    ensures var o := Step(s);
      && (s.timer == 0 ==> o == Return(Drive(s, 0, s.duty).(timer := 1), RC_CONTINUE))
      && (0 < s.timer && s.timer + 1 < PERIOD ==> o == Return(s.(timer := s.timer + 1), RC_CONTINUE))
      && (0 < s.timer && s.timer + 1 >= PERIOD && s.duty - DUTY_STEP > 0 ==>
            o == Return(Drive(s, 0, s.duty - DUTY_STEP).(duty := s.duty - DUTY_STEP, timer := 1), RC_CONTINUE))
      && (0 < s.timer && s.timer + 1 >= PERIOD && s.duty - DUTY_STEP <= 0 ==>
            o.rc == RC_STOP && o.state.stage == Off && o.state.output[0] == 0 && o.state.output[1] == 0)
  {
    AtMostTwoPasses(s);
  }

  /** OFF switches the motor off and stops the program. */
  lemma OffStops(s: State)
    requires Valid(s) && s.stage == Off
    ensures Step(s) == Return(Drive(s, 0, 0), RC_STOP)
  {
  }

  /**
   * Stages only move forward, DIRECTION_1 -> PAUSE -> DIRECTION_2 -> OFF;
   * the program stops exactly when it ends a tick in OFF; and motor M1 is
   * never driven in both directions.
   */
  lemma StagesMoveForward(s: State)
    requires Valid(s)
    ensures var o := Step(s);
      && Rank(o.state.stage) >= Rank(s.stage)
      && (o.rc == RC_STOP <==> o.state.stage == Off)
      && (o.rc == RC_STOP || o.rc == RC_CONTINUE)
      && (OneDirection(s) ==> OneDirection(o.state))
  {
    AtMostTwoPasses(s);
  }

  // ---------------------------------------------------------------------
  // The program's statics and outputs, updated in place

  class MotorRun {
    var timer: nat
    var stage: Stage
    var duty: int
    /** output.duty: the PWM duty of each output channel. */
    const output: array<int>

    function Snapshot(): State
      reads this, output
    {
      State(timer, stage, duty, output[..])
    }

    constructor ()
      ensures Snapshot() == Zero && output.Length == N_PWM_CHAN
    {
      timer, stage, duty := 0, Direction1, 0;
      output := new int[N_PWM_CHAN](_ => 0);
    }

    method PrgInit()
      requires output.Length == N_PWM_CHAN
      modifies this, output
      ensures Snapshot() == Init(old(Snapshot()))
    {
      output[0] := 0;
      output[1] := 0;
      timer := 0;
      stage := Direction1;
      duty := 0;
    }

    /**
     * PrgTic: the `while (1)` loop around the switch; each pass either
     * returns or continues with the next duty step.
     */
    method PrgTic() returns (rc: int)
      requires output.Length == N_PWM_CHAN
      modifies this, output
      ensures Step(old(Snapshot())) == Return(Snapshot(), rc)
    {
      ghost var goal := Run(Snapshot());
      while true
        invariant Valid(Snapshot()) && Run(Snapshot()) == goal
        decreases Measure(Snapshot())
      {
        var cont;
        cont, rc := PassOnce();
        if !cont {
          return;
        }
      }
    }

    /** One pass through the switch, from the label of the current stage. */
    method PassOnce() returns (cont: bool, rc: int)
      requires output.Length == N_PWM_CHAN
      modifies this, output
      ensures Pass(old(Snapshot())) == (if cont then Continue(Snapshot()) else Return(Snapshot(), rc))
    {
      match stage
      case Direction1 =>
        cont, rc := Direction1Case();
      case Pause =>
        cont, rc := PauseCase();
      case Direction2 =>
        cont, rc := Direction2Case();
      case Off =>
        cont, rc := OffCase();
    }

    /** DIRECTION_1: at the start of a step raise the duty; after 2000 ticks continue, or fall into PAUSE at DUTY_MAX. */
    method Direction1Case() returns (cont: bool, rc: int)
      requires output.Length == N_PWM_CHAN
      modifies this, output
      ensures CaseDirection1(old(Snapshot())) == (if cont then Continue(Snapshot()) else Return(Snapshot(), rc))
    {
      cont, rc := false, RC_CONTINUE;
      if timer == 0 {
        duty := duty + DUTY_STEP;
        output[0] := duty;
        output[1] := 0;
      }
      timer := timer + 1;
      if timer >= PERIOD {
        timer := 0;
        if duty >= DUTY_MAX {
          stage := Pause;
          cont, rc := PauseCase();
        } else {
          cont := true;
        }
      }
    }

    /** PAUSE: both channels off; after 2000 ticks fall into DIRECTION_2. */
    method PauseCase() returns (cont: bool, rc: int)
      requires output.Length == N_PWM_CHAN
      modifies this, output
      ensures CasePause(old(Snapshot())) == (if cont then Continue(Snapshot()) else Return(Snapshot(), rc))
    {
      cont, rc := false, RC_CONTINUE;
      if timer == 0 {
        output[0] := 0;
        output[1] := 0;
      }
      timer := timer + 1;
      if timer >= PERIOD {
        stage := Direction2;
        timer := 0;
        cont, rc := Direction2Case();
      }
    }

    /** DIRECTION_2: after 2000 ticks lower the duty and continue, or fall into OFF once it is no longer positive. */
    method Direction2Case() returns (cont: bool, rc: int)
      requires output.Length == N_PWM_CHAN
      modifies this, output
      ensures CaseDirection2(old(Snapshot())) == (if cont then Continue(Snapshot()) else Return(Snapshot(), rc))
    {
      cont, rc := false, RC_CONTINUE;
      if timer == 0 {
        output[0] := 0;
        output[1] := duty;
      }
      timer := timer + 1;
      if timer >= PERIOD {
        duty := duty - DUTY_STEP;
        if duty <= 0 {
          stage := Off;
          cont, rc := OffCase();
        } else {
          timer := 0;
          cont := true;
        }
      }
    }

    /** OFF: switch the motor off and end the program. */
    method OffCase() returns (cont: bool, rc: int)
      requires output.Length == N_PWM_CHAN
      modifies this, output
      ensures CaseOff(old(Snapshot())) == (if cont then Continue(Snapshot()) else Return(Snapshot(), rc))
    {
      output[0] := 0;
      output[1] := 0;
      cont, rc := false, RC_STOP;
    }
  }
}

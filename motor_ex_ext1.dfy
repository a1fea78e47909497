/**
 * Extended motor control of motor M1 on the first extension module: the
 * motor turns 200 counter steps one way, then 200 steps back, forever.
 *
 * A command is issued whenever the wanted rotation direction differs from
 * the direction of the last command; the firmware sets the motor's
 * "position reached" flag when the 200 steps are done, and the next tick
 * then reverses the wanted direction.
 */
module MotorExExt1 {
  import opened Robo

  const MOTOR_IDX: int := 0
  const DISTANCE: int := 200

  /** The program's two statics and the transfer-area cells it uses. */
  datatype State = State(
    rotationDirection: bool,
    prevRotationDirection: bool,
    duty: seq<int>,
    distance: seq<int>,
    posReached: seq<bool>,
    cmdId: seq<nat>)

  predicate Valid(s: State)
  {
    |s.duty| == N_PWM_CHAN && |s.distance| == N_MOTOR && |s.posReached| == N_MOTOR && |s.cmdId| == N_MOTOR
  }

  /** The duty of the motor's two output channels for a direction. */
  function ForwardDuty(direction: bool): int { if direction then DUTY_MAX as int else 0 }
  function BackwardDuty(direction: bool): int { if direction then 0 else DUTY_MAX as int }

  /** The writes that start an extended motor command in the wanted direction. */
  function Issue(s: State): (t: State)
    requires Valid(s)
    ensures Valid(t) && t.rotationDirection == s.rotationDirection
    ensures t.prevRotationDirection == t.rotationDirection
    ensures (t.duty[0] == DUTY_MAX && t.duty[1] == 0) == t.rotationDirection
    ensures (t.duty[0] == 0 && t.duty[1] == DUTY_MAX) == !t.rotationDirection
    ensures t.distance[MOTOR_IDX] == DISTANCE && !t.posReached[MOTOR_IDX]
    ensures t.cmdId[MOTOR_IDX] == s.cmdId[MOTOR_IDX] + 1
    ensures forall i :: 0 <= i < N_MOTOR && i != MOTOR_IDX ==> t.cmdId[i] == s.cmdId[i]
  {
    var d := s.rotationDirection;
    s.(duty := s.duty[2 * MOTOR_IDX := ForwardDuty(d)][2 * MOTOR_IDX + 1 := BackwardDuty(d)],
       distance := s.distance[MOTOR_IDX := DISTANCE],
       posReached := s.posReached[MOTOR_IDX := false],
       cmdId := s.cmdId[MOTOR_IDX := s.cmdId[MOTOR_IDX] + 1],
       prevRotationDirection := d)
  }

  /** One PrgTic call; it always returns RC_CONTINUE. */
  function Step(s: State): (t: State)
    requires Valid(s)
    ensures Valid(t)
    ensures t.cmdId[MOTOR_IDX] == s.cmdId[MOTOR_IDX] + (if s.rotationDirection != s.prevRotationDirection then 1 else 0)
    ensures !t.posReached[MOTOR_IDX] ==> t.rotationDirection == t.prevRotationDirection
  {
    var t := if s.rotationDirection != s.prevRotationDirection then Issue(s) else s;
    if t.posReached[MOTOR_IDX] then t.(rotationDirection := !t.rotationDirection) else t
  }

  const Zero: State := State(false, false, seq(N_PWM_CHAN, _ => 0), seq(N_MOTOR, _ => 0),
                             seq(N_MOTOR, _ => false), seq(N_MOTOR, _ => 0))

  /** PrgInit: want direction "false" and pretend the last command went the other way. */
  function Init(s: State): (t: State)
    ensures t.rotationDirection != t.prevRotationDirection
    ensures t.duty == s.duty && t.distance == s.distance && t.posReached == s.posReached && t.cmdId == s.cmdId
  {
    s.(rotationDirection := false, prevRotationDirection := true)
  }

  /** The firmware reports that the motor has covered its distance. */
  function OnPositionReached(s: State): (t: State)
    requires Valid(s)
    ensures Valid(t) && t.posReached[MOTOR_IDX]
    ensures forall i :: 0 <= i < N_MOTOR && i != MOTOR_IDX ==> t.posReached[i] == s.posReached[i]
    ensures t.rotationDirection == s.rotationDirection && t.prevRotationDirection == s.prevRotationDirection
    ensures t.duty == s.duty && t.distance == s.distance && t.cmdId == s.cmdId
  {
    s.(posReached := s.posReached[MOTOR_IDX := true])
  }

  // ---------------------------------------------------------------------
  // Properties

  lemma StepKeepsValid(s: State)
    requires Valid(s)
    ensures Valid(Step(s))
  {
  }

  /** After PrgInit the first tick issues a command, whatever the position flag says. */
  lemma FirstTickIssues(s: State)
    requires Valid(s)
    ensures var t := Step(Init(s));
      && t.cmdId[MOTOR_IDX] == s.cmdId[MOTOR_IDX] + 1
      && t.duty[0] == 0 && t.duty[1] == DUTY_MAX
      && t.prevRotationDirection == false && t.rotationDirection == false
  {
  }

  /**
   * On a direction change the motor gets a command: exactly one of its two
   * channels at DUTY_MAX and the other at 0, distance 200, its position flag
   * cleared, its command id one higher; the direction is remembered and is
   * not reversed in the same tick. No other cell changes.
   */
  lemma ChangeIssuesCommand(s: State)
    requires Valid(s) && s.rotationDirection != s.prevRotationDirection
    ensures var t := Step(s);
      && (t.duty[0] == DUTY_MAX <==> t.duty[1] == 0)
      && (t.duty[0] == 0 <==> t.duty[1] == DUTY_MAX)
      && (t.duty[0] == DUTY_MAX <==> s.rotationDirection)
      && t.distance[MOTOR_IDX] == DISTANCE
      && !t.posReached[MOTOR_IDX]
      && t.cmdId[MOTOR_IDX] == s.cmdId[MOTOR_IDX] + 1
      && t.prevRotationDirection == t.rotationDirection == s.rotationDirection
      && (forall i :: 2 <= i < N_PWM_CHAN ==> t.duty[i] == s.duty[i])
      && (forall m :: 0 <= m < N_MOTOR && m != MOTOR_IDX ==>
            t.distance[m] == s.distance[m] && t.posReached[m] == s.posReached[m] && t.cmdId[m] == s.cmdId[m])
  {
  }

  /** Without a direction change no output cell is written; only the wanted direction may flip. */
  lemma NoChangeWritesNothing(s: State)
    requires Valid(s) && s.rotationDirection == s.prevRotationDirection
    ensures var t := Step(s);
      t == s.(rotationDirection := t.rotationDirection)
  {
  }

  /** The wanted direction flips exactly when the motor's position flag is set after the command writes. */
  lemma FlipsOnlyWhenReached(s: State)
    requires Valid(s)
    ensures var t := Step(s);
      && (t.rotationDirection != s.rotationDirection <==>
            s.rotationDirection == s.prevRotationDirection && s.posReached[MOTOR_IDX])
  {
  }

  /**
   * A whole back-and-forth cycle: after a command, ticks without the
   * firmware's report change nothing; once the position is reported, the
   * next tick reverses the wanted direction and the one after issues the
   * reverse command.
   */
  lemma ReachedReverses(s: State)
    requires Valid(s) && s.rotationDirection != s.prevRotationDirection
    ensures var c := Step(s);
      && Step(c) == c
      && var r := Step(OnPositionReached(c));
         && r.rotationDirection == !s.rotationDirection
         && var n := Step(r);
            && n.cmdId[MOTOR_IDX] == s.cmdId[MOTOR_IDX] + 2
            && n.duty[0] == BackwardDuty(s.rotationDirection)
            && n.duty[1] == ForwardDuty(s.rotationDirection)
  {
    var c := Step(s);
    assert !c.posReached[MOTOR_IDX] && c.rotationDirection == c.prevRotationDirection;
    NoChangeWritesNothing(c);
    var r := Step(OnPositionReached(c));
    FlipsOnlyWhenReached(OnPositionReached(c));
    assert r.rotationDirection != r.prevRotationDirection;
    ChangeIssuesCommand(r);
  }

  // ---------------------------------------------------------------------
  // The program's statics and transfer-area cells, updated in place

  class MotorExExt1 {
    var rotationDirection: bool
    var prevRotationDirection: bool
    /** output.duty */
    const duty: array<int>
    /** output.distance */
    const distance: array<int>
    /** input.motor_pos_reached: set by the firmware, cleared by the program. */
    const posReached: array<bool>
    /** output.motor_ex_cmd_id */
    const cmdId: array<nat>

    /** The transfer-area arrays have their sizes and are distinct. */
    predicate Shaped()
    {
      duty.Length == N_PWM_CHAN && distance.Length == N_MOTOR && posReached.Length == N_MOTOR
      && cmdId.Length == N_MOTOR && duty != distance
    }

    function Snapshot(): State
      reads this, duty, distance, posReached, cmdId
    {
      State(rotationDirection, prevRotationDirection, duty[..], distance[..], posReached[..], cmdId[..])
    }

    constructor ()
      ensures Shaped() && Snapshot() == Zero
    {
      rotationDirection, prevRotationDirection := false, false;
      duty := new int[N_PWM_CHAN](_ => 0);
      distance := new int[N_MOTOR](_ => 0);
      posReached := new bool[N_MOTOR](_ => false);
      cmdId := new nat[N_MOTOR](_ => 0);
    }

    method PrgInit()
      modifies this
      ensures Snapshot() == Init(old(Snapshot()))
    {
      rotationDirection := false;
      prevRotationDirection := !rotationDirection;
    }

    /** The firmware marks the motor's extended command as done. */
    method PositionReached()
      requires Shaped()
      modifies posReached
      ensures Snapshot() == OnPositionReached(old(Snapshot()))
    {
      posReached[MOTOR_IDX] := true;
    }

    method PrgTic() returns (rc: int)
      requires Shaped()
      modifies this, duty, distance, posReached, cmdId
      ensures Snapshot() == Step(old(Snapshot())) && rc == RC_CONTINUE
    {
      rc := RC_CONTINUE;
      if rotationDirection != prevRotationDirection {
        duty[2 * MOTOR_IDX + 0] := if rotationDirection then DUTY_MAX as int else 0;
        duty[2 * MOTOR_IDX + 1] := if rotationDirection then 0 else DUTY_MAX as int;
        distance[MOTOR_IDX] := DISTANCE;
        posReached[MOTOR_IDX] := false;
        cmdId[MOTOR_IDX] := cmdId[MOTOR_IDX] + 1;
        prevRotationDirection := rotationDirection;
      }
      if posReached[MOTOR_IDX] {
        rotationDirection := !rotationDirection;
      }
    }
  }
}

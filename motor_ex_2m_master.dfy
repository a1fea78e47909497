/**
 * Synchronised extended motor control of two local motors: motor M2 is
 * linked to M1 as its slave, and both turn 200 counter steps one way, then
 * 200 steps back, forever.
 *
 * A command for both motors is issued whenever the wanted rotation
 * direction differs from the direction of the last command; the wanted
 * direction is reversed once the firmware reports that both motors have
 * reached their position.
 */
module MotorEx2MMaster {
  import opened Robo

  const MASTER_IDX: int := 0
  const SLAVE_IDX: int := 1
  const DISTANCE: int := 200

  /** The program's two statics and the transfer-area cells it uses. */
  datatype State = State(
    rotationDirection: bool,
    prevRotationDirection: bool,
    duty: seq<int>,
    distance: seq<int>,
    master: seq<int>,
    posReached: seq<bool>,
    cmdId: seq<nat>)

  predicate Valid(s: State)
  {
    && |s.duty| == N_PWM_CHAN && |s.distance| == N_MOTOR && |s.master| == N_MOTOR
    && |s.posReached| == N_MOTOR && |s.cmdId| == N_MOTOR
  }

  /** The duty of a motor's two output channels for a direction. */
  function ForwardDuty(direction: bool): int { if direction then DUTY_MAX as int else 0 }
  function BackwardDuty(direction: bool): int { if direction then 0 else DUTY_MAX as int }

  /** Both motors have reported that they covered their distance. */
  predicate BothReached(s: State)
    requires Valid(s)
  {
    s.posReached[MASTER_IDX] && s.posReached[SLAVE_IDX]
  }

  /** The writes that start the linked command pair in the wanted direction. */
  function Issue(s: State): (t: State)
    requires Valid(s)
    ensures Valid(t) && t.rotationDirection == s.rotationDirection
    ensures t.prevRotationDirection == t.rotationDirection && !BothReached(t) && t.master[SLAVE_IDX] == MASTER_IDX + 1
    ensures t.duty[2 * SLAVE_IDX] == t.duty[2 * MASTER_IDX] && t.duty[2 * SLAVE_IDX + 1] == t.duty[2 * MASTER_IDX + 1]
    ensures (t.duty[0] == DUTY_MAX && t.duty[1] == 0) == t.rotationDirection
    ensures (t.duty[0] == 0 && t.duty[1] == DUTY_MAX) == !t.rotationDirection
    ensures t.distance[MASTER_IDX] == DISTANCE && t.distance[SLAVE_IDX] == DISTANCE
    ensures t.cmdId[MASTER_IDX] == s.cmdId[MASTER_IDX] + 1 && t.cmdId[SLAVE_IDX] == s.cmdId[SLAVE_IDX] + 1
  {
    var d := s.rotationDirection;
    s.(duty := s.duty[2 * MASTER_IDX := ForwardDuty(d)][2 * MASTER_IDX + 1 := BackwardDuty(d)]
                     [2 * SLAVE_IDX := ForwardDuty(d)][2 * SLAVE_IDX + 1 := BackwardDuty(d)],
       distance := s.distance[MASTER_IDX := DISTANCE][SLAVE_IDX := DISTANCE],
       master := s.master[SLAVE_IDX := MASTER_IDX + 1],
       posReached := s.posReached[MASTER_IDX := false][SLAVE_IDX := false],
       cmdId := s.cmdId[MASTER_IDX := s.cmdId[MASTER_IDX] + 1][SLAVE_IDX := s.cmdId[SLAVE_IDX] + 1],
       prevRotationDirection := d)
  }

  /** One PrgTic call; it always returns RC_CONTINUE. */
  function Step(s: State): (t: State)
    requires Valid(s)
    ensures Valid(t)
    ensures t.cmdId[MASTER_IDX] == s.cmdId[MASTER_IDX] + (if s.rotationDirection != s.prevRotationDirection then 1 else 0)
    ensures !BothReached(t) ==> t.rotationDirection == t.prevRotationDirection
  {
    var t := if s.rotationDirection != s.prevRotationDirection then Issue(s) else s;
    if BothReached(t) then t.(rotationDirection := !t.rotationDirection) else t
  }

  const Zero: State := State(false, false, seq(N_PWM_CHAN, _ => 0), seq(N_MOTOR, _ => 0),
                             seq(N_MOTOR, _ => 0), seq(N_MOTOR, _ => false), seq(N_MOTOR, _ => 0))

  /** PrgInit: want direction "false" and pretend the last command went the other way. */
  function Init(s: State): (t: State)
    ensures t.rotationDirection != t.prevRotationDirection
    ensures t.duty == s.duty && t.distance == s.distance && t.master == s.master
    ensures t.posReached == s.posReached && t.cmdId == s.cmdId
  {
    s.(rotationDirection := false, prevRotationDirection := true)
  }

  /** The firmware reports that motor `m` has covered its distance. */
  function OnPositionReached(s: State, m: int): (t: State)
    requires Valid(s) && 0 <= m < N_MOTOR
    ensures Valid(t) && t.posReached[m]
    ensures forall i :: 0 <= i < N_MOTOR && i != m ==> t.posReached[i] == s.posReached[i]
    ensures t.rotationDirection == s.rotationDirection && t.prevRotationDirection == s.prevRotationDirection
    ensures t.duty == s.duty && t.distance == s.distance && t.master == s.master && t.cmdId == s.cmdId
  {
    s.(posReached := s.posReached[m := true])
  }

  // ---------------------------------------------------------------------
  // Properties

  lemma StepKeepsValid(s: State)
    requires Valid(s)
    ensures Valid(Step(s))
  {
  }

  /** After PrgInit the first tick issues a command pair, whatever the position flags say. */
  lemma FirstTickIssues(s: State)
    requires Valid(s)
    ensures var t := Step(Init(s));
      && t.cmdId[MASTER_IDX] == s.cmdId[MASTER_IDX] + 1 && t.cmdId[SLAVE_IDX] == s.cmdId[SLAVE_IDX] + 1
      && t.duty[0..4] == [0, DUTY_MAX as int, 0, DUTY_MAX as int]
      && t.prevRotationDirection == false && t.rotationDirection == false
  {
  }

  /**
   * On a direction change both motors get the same duty pair, one channel
   * at DUTY_MAX and the other at 0; both distances become 200, the slave is
   * linked to motor 1, both position flags are cleared and both command ids
   * go up by one; the direction is remembered and not reversed in the same
   * tick. No other cell changes.
   */
  lemma ChangeIssuesCommands(s: State)
    requires Valid(s) && s.rotationDirection != s.prevRotationDirection
    ensures var t := Step(s);
      && t.duty[2] == t.duty[0] && t.duty[3] == t.duty[1]
      && (t.duty[0] == DUTY_MAX <==> t.duty[1] == 0)
      && (t.duty[0] == 0 <==> t.duty[1] == DUTY_MAX)
      && (t.duty[0] == DUTY_MAX <==> s.rotationDirection)
      && t.distance[MASTER_IDX] == t.distance[SLAVE_IDX] == DISTANCE
      && t.master[SLAVE_IDX] == 1
      && !t.posReached[MASTER_IDX] && !t.posReached[SLAVE_IDX]
      && t.cmdId[MASTER_IDX] == s.cmdId[MASTER_IDX] + 1 && t.cmdId[SLAVE_IDX] == s.cmdId[SLAVE_IDX] + 1
      && t.prevRotationDirection == t.rotationDirection == s.rotationDirection
      && (forall i :: 4 <= i < N_PWM_CHAN ==> t.duty[i] == s.duty[i])
      && t.master[MASTER_IDX] == s.master[MASTER_IDX]
      && (forall m :: 2 <= m < N_MOTOR ==>
            && t.distance[m] == s.distance[m] && t.master[m] == s.master[m]
            && t.posReached[m] == s.posReached[m] && t.cmdId[m] == s.cmdId[m])
  {
  }

  /** Without a direction change no output cell is written; only the wanted direction may flip. */
  lemma NoChangeWritesNothing(s: State)
    requires Valid(s) && s.rotationDirection == s.prevRotationDirection
    ensures var t := Step(s);
      t == s.(rotationDirection := t.rotationDirection)
  {
  }

  /** The wanted direction flips exactly when, after the command writes, both motors report their position. */
  lemma FlipsOnlyWhenBothReached(s: State)
    requires Valid(s)
    ensures var t := Step(s);
      && (t.rotationDirection != s.rotationDirection <==>
            s.rotationDirection == s.prevRotationDirection && BothReached(s))
  {
  }

  /**
   * After a command pair, a report from one motor alone changes nothing;
   * once both have reported, the next tick reverses the wanted direction
   * and the one after issues the reverse commands.
   */
  lemma WaitsForBoth(s: State, first: int)
    requires Valid(s) && s.rotationDirection != s.prevRotationDirection
    requires first == MASTER_IDX || first == SLAVE_IDX
    ensures var c := Step(s);
      var one := OnPositionReached(c, first);
      && Step(one) == one
      && var r := Step(OnPositionReached(one, MASTER_IDX + SLAVE_IDX - first));
         && r.rotationDirection == !s.rotationDirection
         && var n := Step(r);
            && n.cmdId[MASTER_IDX] == s.cmdId[MASTER_IDX] + 2
            && n.cmdId[SLAVE_IDX] == s.cmdId[SLAVE_IDX] + 2
            && n.duty[0] == n.duty[2] == BackwardDuty(s.rotationDirection)
            && n.duty[1] == n.duty[3] == ForwardDuty(s.rotationDirection)
  {
    var c := Step(s);
    ChangeIssuesCommands(s);
    var one := OnPositionReached(c, first);
    assert !BothReached(one);
    NoChangeWritesNothing(one);
    var both := OnPositionReached(one, MASTER_IDX + SLAVE_IDX - first);
    assert BothReached(both);
    FlipsOnlyWhenBothReached(both);
    var r := Step(both);
    assert r.rotationDirection != r.prevRotationDirection;
    ChangeIssuesCommands(r);
  }

  // ---------------------------------------------------------------------
  // The program's statics and transfer-area cells, updated in place

  class MotorEx2MMaster {
    var rotationDirection: bool
    var prevRotationDirection: bool
    /** output.duty */
    const duty: array<int>
    /** output.distance */
    const distance: array<int>
    /** output.master: the number of the motor each motor follows, 0 for none. */
    const master: array<int>
    /** input.motor_pos_reached: set by the firmware, cleared by the program. */
    const posReached: array<bool>
    /** output.motor_ex_cmd_id */
    const cmdId: array<nat>

    /** The transfer-area arrays have their sizes and are distinct. */
    predicate Shaped()
    {
      && duty.Length == N_PWM_CHAN && distance.Length == N_MOTOR && master.Length == N_MOTOR
      && posReached.Length == N_MOTOR && cmdId.Length == N_MOTOR
      && duty != distance && duty != master && distance != master
    }

    function Snapshot(): State
      reads this, duty, distance, master, posReached, cmdId
    {
      State(rotationDirection, prevRotationDirection, duty[..], distance[..], master[..], posReached[..], cmdId[..])
    }

    constructor ()
      ensures Shaped() && Snapshot() == Zero
    {
      rotationDirection, prevRotationDirection := false, false;
      duty := new int[N_PWM_CHAN](_ => 0);
      distance := new int[N_MOTOR](_ => 0);
      master := new int[N_MOTOR](_ => 0);
      posReached := new bool[N_MOTOR](_ => false);
      cmdId := new nat[N_MOTOR](_ => 0);
    }

    method PrgInit()
      modifies this
      ensures Snapshot() == Init(old(Snapshot()))
    {
      rotationDirection := false;
      prevRotationDirection := !rotationDirection;
    }

    /** The firmware marks motor `m`'s extended command as done. */
    method PositionReached(m: int)
      requires Shaped() && 0 <= m < N_MOTOR
      modifies posReached
      ensures Snapshot() == OnPositionReached(old(Snapshot()), m)
    {
      posReached[m] := true;
    }

    method PrgTic() returns (rc: int)
      requires Shaped()
      modifies this, duty, distance, master, posReached, cmdId
      ensures Snapshot() == Step(old(Snapshot())) && rc == RC_CONTINUE
    {
      rc := RC_CONTINUE;
      if rotationDirection != prevRotationDirection {
        IssueCommands();
      }
      if posReached[MASTER_IDX] && posReached[SLAVE_IDX] {
        rotationDirection := !rotationDirection;
      }
    }

    /** The writes of one linked command pair: both motors' duties, distances and flags, the link, the ids. */
    method IssueCommands()
      requires Shaped()
      modifies this, duty, distance, master, posReached, cmdId
      ensures Snapshot() == Issue(old(Snapshot()))
    {
      SetDuties(rotationDirection);
      SetTargets();
      posReached[MASTER_IDX] := false;
      posReached[SLAVE_IDX] := false;
      cmdId[MASTER_IDX] := cmdId[MASTER_IDX] + 1;
      cmdId[SLAVE_IDX] := cmdId[SLAVE_IDX] + 1;
      prevRotationDirection := rotationDirection;
    }

    /** Both motors' output channels for direction `d`. */
    method SetDuties(d: bool)
      requires Shaped()
      modifies duty
      ensures duty[..] == old(duty[..])[2 * MASTER_IDX := ForwardDuty(d)][2 * MASTER_IDX + 1 := BackwardDuty(d)]
                                       [2 * SLAVE_IDX := ForwardDuty(d)][2 * SLAVE_IDX + 1 := BackwardDuty(d)]
    {
      duty[2 * MASTER_IDX + 0] := if d then DUTY_MAX as int else 0;
      duty[2 * MASTER_IDX + 1] := if d then 0 else DUTY_MAX as int;
      duty[2 * SLAVE_IDX + 0] := if d then DUTY_MAX as int else 0;
      duty[2 * SLAVE_IDX + 1] := if d then 0 else DUTY_MAX as int;
    }

    /** Both motors' distances, and the slave's link to the master. */
    method SetTargets()
      requires Shaped()
      modifies distance, master
      ensures distance[..] == old(distance[..])[MASTER_IDX := DISTANCE][SLAVE_IDX := DISTANCE]
      ensures master[..] == old(master[..])[SLAVE_IDX := MASTER_IDX + 1]
    {
      distance[MASTER_IDX] := DISTANCE;
      distance[SLAVE_IDX] := DISTANCE;
      master[SLAVE_IDX] := MASTER_IDX + 1;
    }
  }
}

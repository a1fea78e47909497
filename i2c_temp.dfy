/**
 * Reading a DS1631 digital thermometer over I2C.
 *
 * Four initialisation writes configure the sensor for continuous
 * conversion, set its thermostat limits and start converting; then PrgTic
 * loops: write the read-temperature command (0xAA), read the temperature
 * register, clear the display, show the temperature 20 ticks later, and
 * start over 1000 ticks after that. As in the thermopile program, an issue
 * stage starts one I2C command and steps into its wait stage, only the I2C
 * callback leaves a wait stage, and every switch case returns.
 *
 * The temperature register holds a two's complement value in units of
 * 1/256 degree, of which the configured 9-bit resolution keeps the high
 * byte and the half-degree bit 0x0080. `DecodeAsWritten` is the program's
 * conversion for the display, which `Step` and the class's tick use;
 * `Decode` is the corrected one, which `StepCorrected` uses (see
 * `NegativeWholeDegreesMisread`).
 */
module I2cTemp {
  import opened Robo

  /** The I2C address of the DS1631. */
  const ADDRESS: int := 0x4F
  const CLEAR_DELAY: nat := 20
  const SHOW_DELAY: nat := 1000

  // The stages, numbered as in the program's enum.
  const INIT_1: nat := 0
  const WAIT_1: nat := 1
  const INIT_2: nat := 2
  const WAIT_2: nat := 3
  const INIT_3: nat := 4
  const WAIT_3: nat := 5
  const INIT_4: nat := 6
  const WAIT_4: nat := 7
  const LOOP_WRITE: nat := 8
  const LOOP_WRITE_WAIT: nat := 9
  const LOOP_READ: nat := 10
  const LOOP_READ_WAIT: nat := 11
  const LOOP_CLEAR_PREV_SCREEN: nat := 12
  const LOOP_DISP_RESULT: nat := 13
  const LOOP_WAIT_NEXT_ACTION: nat := 14

  /** The stages that start an I2C command: INIT_1 .. INIT_4, LOOP_WRITE and LOOP_READ. */
  predicate IsIssueStage(st: nat)
  {
    st <= LOOP_READ && st % 2 == 0
  }

  /** The stages that wait for the I2C callback. */
  predicate IsWaitStage(st: nat)
  {
    st <= LOOP_READ_WAIT && st % 2 == 1
  }

  /** The command an issue stage starts. */
  function Command(st: nat): (e: Event)
    requires IsIssueStage(st)
    ensures (e.I2cRead? || e.I2cWrite?) && e.address == ADDRESS
    ensures e.I2cRead? <==> st == LOOP_READ
    ensures st < INIT_4 ==> e.I2cWrite? && e.offset != 0x00
    ensures st >= INIT_4 ==> e.offset == 0x00
  {
    if st == INIT_1 then I2cWrite(ADDRESS, 0xAC, 0x02, 0x85)        // configuration register
    else if st == INIT_2 then I2cWrite(ADDRESS, 0xA1, 0x2800, 0x89) // thermostat high limit
    else if st == INIT_3 then I2cWrite(ADDRESS, 0xA2, 0x0A00, 0x89) // thermostat low limit
    else if st == INIT_4 then I2cWrite(ADDRESS, 0x00, 0x51, 0x84)   // start converting
    else if st == LOOP_WRITE then I2cWrite(ADDRESS, 0x00, 0xAA, 0x84) // read temperature
    else I2cRead(ADDRESS, 0x00, 0x88)                                // the temperature register
  }

  /** The program's globals. */
  datatype State = State(stage: nat, ticks: uint32, nextAction: uint32, status: uint16, value: uint16)

  predicate Valid(s: State)
  {
    s.stage <= LOOP_WAIT_NEXT_ACTION
  }

  // ---------------------------------------------------------------------
  // The temperature shown on the display

  /** What the display shows: a sign, whole degrees (an unsigned char) and tenths (0 or 5). */
  datatype Reading = Reading(sign: char, whole: byte, fraction: int)

  /** Bit 0x0080 of the register: the half degree. */
  predicate HalfBit(value: uint16)
  {
    (value / 0x80) % 2 == 1
  }

  /** Bit 0x8000 of the register: the sign. */
  predicate SignBit(value: uint16)
  {
    value >= 0x8000
  }

  /** The high byte of the register, `value >> 8`. */
  function HighByte(value: uint16): byte
  {
    value / 0x100
  }

  /** The program's conversion: for a negative value, the ones' complement of the high byte. */
  function DecodeAsWritten(value: uint16): (r: Reading)
    ensures r.sign == '-' <==> SignBit(value)
    ensures r.fraction == 5 <==> HalfBit(value)
  {
    var fraction := if HalfBit(value) then 5 else 0;
    if SignBit(value) then Reading('-', 0xFF - HighByte(value), fraction)
    else Reading('+', HighByte(value), fraction)
  }

  /**
   * The corrected conversion: the magnitude of a negative value is the
   * two's complement negation, which is the ones' complement of the high
   * byte when the half-degree bit is set and one more than that otherwise.
   */
  function Decode(value: uint16): (r: Reading)
    ensures r.sign == '-' <==> ToInt16(value) < 0
    ensures r.fraction == 5 <==> HalfBit(value)
  {
    var fraction := if HalfBit(value) then 5 else 0;
    if !SignBit(value) then Reading('+', HighByte(value), fraction)
    else if HalfBit(value) then Reading('-', 0xFF - HighByte(value), fraction)
    else Reading('-', 0x100 - HighByte(value), fraction)
  }

  /** The signed number of half degrees a displayed reading stands for. */
  function HalfDegrees(r: Reading): int
  {
    var magnitude := 2 * r.whole + (if r.fraction == 5 then 1 else 0);
    if r.sign == '-' then -magnitude else magnitude
  }

  /** The register's value in half degrees, rounded down: its INT16 value shifted right by 7. */
  function RegisterHalfDegrees(value: uint16): int
  {
    ToInt16(value) / 0x80
  }

  /** The program's conversion: tenths are 5 exactly when bit 0x0080 is set; the sign and magnitude follow bit 0x8000. */
  lemma DecodeAsWrittenFields(value: uint16)
    ensures var r := DecodeAsWritten(value);
      && (r.fraction == 5 <==> HalfBit(value)) && (r.fraction == 0 <==> !HalfBit(value))
      && (SignBit(value) ==> r.sign == '-' && r.whole == 0xFF - value / 0x100)
      && (!SignBit(value) ==> r.sign == '+' && r.whole == value / 0x100)
  {
  }

  /** The corrected conversion shows exactly the register's temperature, to the half degree. */
  lemma DecodeMatchesRegister(value: uint16)
    ensures HalfDegrees(Decode(value)) == RegisterHalfDegrees(value)
    ensures Decode(value).fraction == 5 <==> HalfBit(value)
    ensures Decode(value).sign == '-' <==> ToInt16(value) < 0
  {
    var hi := value / 0x100;
    var lo := value % 0x100;
    assert value == 0x100 * hi + lo;
    assert HalfBit(value) <==> lo >= 0x80;
    if SignBit(value) {
      assert ToInt16(value) / 0x80 == 2 * hi + lo / 0x80 - 0x200;
    } else {
      assert ToInt16(value) / 0x80 == 2 * hi + lo / 0x80;
    }
  }

  /** The corrected conversion differs from the program's only for negative whole-degree values. */
  lemma DecodeDiffersOnlyOnNegativeWholeDegrees(value: uint16)
    ensures Decode(value) != DecodeAsWritten(value) <==> SignBit(value) && !HalfBit(value)
  {
  }

  /**
   * The program's conversion shows a negative whole-degree value one degree
   * too warm: -1.0 degree (0xFF00) appears as "-0,0".
   */
  lemma NegativeWholeDegreesMisread(value: uint16)
    requires SignBit(value) && !HalfBit(value)
    ensures HalfDegrees(DecodeAsWritten(value)) == RegisterHalfDegrees(value) + 2
    ensures DecodeAsWritten(0xFF00) == Reading('-', 0, 0) && RegisterHalfDegrees(0xFF00) == -2
  {
    DecodeMatchesRegister(value);
  }

  // ---------------------------------------------------------------------
  // The stage machine

  const Zero: State := State(INIT_1, 0, 0, 0, 0)

  /** PrgInit. */
  function Init(s: State): (t: State)
    ensures Valid(t) && IsIssueStage(t.stage) && Command(t.stage) == I2cWrite(ADDRESS, 0xAC, 0x02, 0x85)
    ensures t.ticks == 0 && t.nextAction == s.nextAction && t.value == s.value && t.status == s.status
  {
    s.(ticks := 0, stage := INIT_1)
  }

  /** The LOOP_DISP_RESULT tick that shows the temperature: the tick count has reached next_action. */
  predicate ShowsResult(s: State)
  {
    s.stage == LOOP_DISP_RESULT && Wrap32(s.ticks + 1) >= s.nextAction
  }

  /** The display message for a reading. */
  function Show(r: Reading): Event
  {
    DisplayMsg(TemperatureReading(r.sign, r.whole, r.fraction))
  }

  /** One PrgTic call, as the program is written: count the tick, then run the case of the current stage. */
  function Step(s: State): (o: Outcome<State>)
    requires Valid(s)
    ensures Valid(o.state) && o.rc == RC_CONTINUE && o.state.ticks == Wrap32(s.ticks + 1)
  {
    var t := s.(ticks := Wrap32(s.ticks + 1));
    var st := s.stage;
    if IsIssueStage(st) then
      Outcome(t.(stage := st + 1), RC_CONTINUE, [Command(st)])
    else if st == LOOP_CLEAR_PREV_SCREEN then
      Outcome(t.(nextAction := Wrap32(t.ticks + CLEAR_DELAY), stage := st + 1), RC_CONTINUE, [DisplayClear])
    else if st == LOOP_DISP_RESULT then
      if t.ticks >= t.nextAction then
        Outcome(t.(nextAction := Wrap32(t.ticks + SHOW_DELAY), stage := st + 1), RC_CONTINUE,
                [Show(DecodeAsWritten(t.value))])
      else Outcome(t, RC_CONTINUE, [])
    else if st == LOOP_WAIT_NEXT_ACTION then
      Outcome(if t.ticks >= t.nextAction then t.(stage := LOOP_WRITE) else t, RC_CONTINUE, [])
    else
      Outcome(t, RC_CONTINUE, [])
  }

  /**
   * The tick with the corrected conversion: the same as the program's,
   * except that the temperature is shown with `Decode`.
   */
  function StepCorrected(s: State): (o: Outcome<State>)
    requires Valid(s)
    ensures o.state == Step(s).state && o.rc == Step(s).rc
    ensures ShowsResult(s) ==> o.events == [Show(Decode(s.value))]
    ensures !ShowsResult(s) ==> o.events == Step(s).events
  {
    var o := Step(s);
    if ShowsResult(s) then o.(events := [Show(Decode(s.value))]) else o
  }

  /** I2cCallback, which answers the command started by the last issue stage. */
  function OnI2c(s: State, status: uint16, value: uint16): (t: State)
    requires Valid(s) && IsWaitStage(s.stage)
    ensures Valid(t) && t.stage == s.stage + 1 && t.value == value && t.status == status
    ensures t.ticks == s.ticks && t.nextAction == s.nextAction
  {
    s.(status := status, value := value, stage := s.stage + 1)
  }

  lemma StepKeepsValid(s: State)
    requires Valid(s)
    ensures Valid(Step(s).state)
  {
  }

  /** The callback stores status and value and steps the stage exactly once. */
  lemma CallbackStoresAndSteps(s: State, status: uint16, value: uint16)
    requires Valid(s) && IsWaitStage(s.stage)
    ensures OnI2c(s, status, value) == s.(status := status, value := value, stage := s.stage + 1)
    ensures Valid(OnI2c(s, status, value)) && !IsWaitStage(OnI2c(s, status, value).stage)
  {
  }

  /**
   * Each issue stage starts exactly one command to the DS1631 and moves to
   * the wait stage after it; a wait stage only counts the tick.
   */
  lemma IssueThenWait(s: State)
    requires Valid(s)
    ensures var o := Step(s);
      && (IsIssueStage(s.stage) ==>
            && o.events == [Command(s.stage)] && o.events[0].address == ADDRESS
            && o.state == s.(ticks := Wrap32(s.ticks + 1), stage := s.stage + 1)
            && IsWaitStage(o.state.stage))
      && (IsWaitStage(s.stage) ==> o == Outcome(s.(ticks := Wrap32(s.ticks + 1)), RC_CONTINUE, []))
  {
  }

  /** Every tick counts itself, starts at most one I2C command, and continues the program. */
  lemma EveryTickCountsAndContinues(s: State)
    requires Valid(s)
    ensures var o := Step(s);
      && o.state.ticks == Wrap32(s.ticks + 1) && o.rc == RC_CONTINUE
      && |o.events| <= 1
      && (AsyncCount(o.events) == 1 <==> IsIssueStage(s.stage))
  {
    AsyncCountSmall();
  }

  /**
   * Once the loop is reached it is never left: neither the tick nor the
   * callback goes back to an INIT stage, so the four initialisation writes
   * happen once.
   */
  lemma LoopNeverReturnsToInit(s: State, status: uint16, value: uint16)
    requires Valid(s) && s.stage >= LOOP_WRITE
    ensures Step(s).state.stage >= LOOP_WRITE
    ensures forall e :: e in Step(s).events ==> e.I2cWrite? ==> e == Command(LOOP_WRITE)
    ensures IsWaitStage(s.stage) ==> OnI2c(s, status, value).stage >= LOOP_WRITE
  {
  }

  /**
   * The display timing: clearing sets next_action 20 ticks ahead; the
   * temperature is shown only once the tick count reaches next_action,
   * which then moves 1000 ticks ahead; the loop starts again at LOOP_WRITE
   * once the tick count reaches it again.
   */
  lemma DisplayTiming(s: State)
    requires Valid(s)
    ensures var o := Step(s);
      var now := Wrap32(s.ticks + 1);
      && (s.stage == LOOP_CLEAR_PREV_SCREEN ==>
            o.events == [DisplayClear] && o.state.nextAction == Wrap32(now + CLEAR_DELAY)
            && o.state.stage == LOOP_DISP_RESULT)
      && (s.stage == LOOP_DISP_RESULT ==>
            && (o.state.stage == LOOP_WAIT_NEXT_ACTION <==> now >= s.nextAction)
            && (now >= s.nextAction ==> o.state.nextAction == Wrap32(now + SHOW_DELAY) && |o.events| == 1)
            && (now < s.nextAction ==> o.state == s.(ticks := now) && o.events == []))
      && (s.stage == LOOP_WAIT_NEXT_ACTION ==>
            o.events == [] && o.state.stage == (if now >= s.nextAction then LOOP_WRITE else LOOP_WAIT_NEXT_ACTION))
  {
  }

  /**
   * The deadlines wrap with `ticks`: a clear five ticks before the counter
   * wraps sets next_action to 15, so the result is shown on the very next
   * tick; that show sets next_action to 996, so the next round starts on
   * the tick after it, long before 1000 ticks have passed.
   */
  lemma DisplayTimingAtWrap(s: State)
    requires Valid(s) && s.stage == LOOP_CLEAR_PREV_SCREEN && s.ticks == 0xFFFF_FFFA
    ensures var t := Step(s).state; var u := Step(t).state;
      && t.nextAction == 15 && t.stage == LOOP_DISP_RESULT
      && u.stage == LOOP_WAIT_NEXT_ACTION && |Step(t).events| == 1 && u.nextAction == 996
      && Step(u).state.stage == LOOP_WRITE
  {
  }

  /**
   * The temperature the program shows: its sign, tenths and whole degrees
   * are those of `DecodeAsWritten`, which is the register's temperature to
   * the half degree except for a negative whole-degree reading, which is
   * shown one degree too warm.
   */
  lemma ShownTemperatureAsWritten(s: State)
    requires Valid(s) && ShowsResult(s)
    ensures exists sign, whole, fraction ::
      && Step(s).events == [DisplayMsg(TemperatureReading(sign, whole, fraction))]
      && (sign == '-' <==> SignBit(s.value)) && (fraction == 5 <==> HalfBit(s.value))
      && HalfDegrees(Reading(sign, whole, fraction))
         == RegisterHalfDegrees(s.value) + (if SignBit(s.value) && !HalfBit(s.value) then 2 else 0)
  {
    var r := DecodeAsWritten(s.value);
    DecodeMatchesRegister(s.value);
    DecodeDiffersOnlyOnNegativeWholeDegrees(s.value);
    if SignBit(s.value) && !HalfBit(s.value) {
      NegativeWholeDegreesMisread(s.value);
    }
    assert Reading(r.sign, r.whole, r.fraction) == r;
  }

  /** With the corrected conversion, the temperature shown is the register's, to the half degree. */
  lemma ShownTemperatureIsRegister(s: State)
    requires Valid(s) && ShowsResult(s)
    ensures exists sign, whole, fraction ::
      && StepCorrected(s).events == [DisplayMsg(TemperatureReading(sign, whole, fraction))]
      && whole == Decode(s.value).whole
      && HalfDegrees(Reading(sign, whole, fraction)) == RegisterHalfDegrees(s.value)
  {
    var r := Decode(s.value);
    DecodeMatchesRegister(s.value);
    assert Reading(r.sign, r.whole, r.fraction) == r;
  }

  /**
   * One measurement: from LOOP_WRITE, a tick writes the read-temperature
   * command (0xAA), its callback arrives, a tick reads the register, its callback arrives with
   * the register's value; the program is then at LOOP_CLEAR_PREV_SCREEN
   * holding that value.
   */
  lemma Measurement(s: State, a: I2cAnswer, b: I2cAnswer)
    requires Valid(s) && s.stage == LOOP_WRITE
    ensures var o1 := Step(s);
      var s1 := OnI2c(o1.state, a.status, a.value);
      var o2 := Step(s1);
      var s2 := OnI2c(o2.state, b.status, b.value);
      && o1.events == [I2cWrite(ADDRESS, 0x00, 0xAA, 0x84)]
      && o2.events == [I2cRead(ADDRESS, 0x00, 0x88)]
      && s2.stage == LOOP_CLEAR_PREV_SCREEN && s2.value == b.value && s2.status == b.status
      && s2.nextAction == s.nextAction
  {
  }

  /** What the firmware hands the callback. */
  datatype I2cAnswer = I2cAnswer(status: uint16, value: uint16)

  // ---------------------------------------------------------------------
  // The program's globals, updated in place

  class Ds1631 {
    var stage: nat
    var ticks: uint32
    var nextAction: uint32
    var status: uint16
    var value: uint16
    /** The hook calls made so far, oldest first. */
    var issued: seq<Event>

    function Snapshot(): State
      reads this
    {
      State(stage, ticks, nextAction, status, value)
    }

    /** The globals as their declarations initialise them. */
    constructor ()
      ensures Snapshot() == Zero && issued == []
    {
      stage, ticks, nextAction, status, value := INIT_1, 0, 0, 0, 0;
      issued := [];
    }

    method PrgInit()
      modifies this
      ensures Snapshot() == Init(old(Snapshot())) && issued == old(issued)
    {
      ticks := 0;
      stage := INIT_1;
    }

    method I2cCallback(st: uint16, val: uint16)
      requires Valid(Snapshot()) && IsWaitStage(stage)
      modifies this
      ensures Snapshot() == OnI2c(old(Snapshot()), st, val) && issued == old(issued)
    {
      status := st;
      value := val;
      stage := stage + 1;
    }

    /** PrgTic: every case of the switch returns, so one tick runs one case. */
    method PrgTic() returns (rc: int)
      requires Valid(Snapshot())
      modifies this
      ensures var o := Step(old(Snapshot()));
        Snapshot() == o.state && rc == o.rc && issued == old(issued) + o.events
    {
      rc := RC_CONTINUE;
      ticks := Wrap32(ticks + 1);
      if stage == INIT_1 {
        issued := issued + [I2cWrite(ADDRESS, 0xAC, 0x02, 0x85)];
        stage := stage + 1;
      } else if stage == INIT_2 {
        issued := issued + [I2cWrite(ADDRESS, 0xA1, 0x2800, 0x89)];
        stage := stage + 1;
      } else if stage == INIT_3 {
        issued := issued + [I2cWrite(ADDRESS, 0xA2, 0x0A00, 0x89)];
        stage := stage + 1;
      } else if stage == INIT_4 {
        issued := issued + [I2cWrite(ADDRESS, 0x00, 0x51, 0x84)];
        stage := stage + 1;
      } else if stage == LOOP_WRITE {
        issued := issued + [I2cWrite(ADDRESS, 0x00, 0xAA, 0x84)];
        stage := stage + 1;
      } else if stage == LOOP_READ {
        issued := issued + [I2cRead(ADDRESS, 0x00, 0x88)];
        stage := stage + 1;
      } else if stage == LOOP_CLEAR_PREV_SCREEN {
        issued := issued + [DisplayClear];
        nextAction := Wrap32(ticks + CLEAR_DELAY);
        stage := stage + 1;
      } else if stage == LOOP_DISP_RESULT {
        if ticks >= nextAction {
          var fraction := if HalfBit(value) then 5 else 0;
          var sign: char;
          var temp: byte;
          if SignBit(value) {
            sign := '-';
            temp := HighByte(value);
            temp := 0xFF - temp;  // ~temp on an unsigned char
          } else {
            sign := '+';
            temp := HighByte(value);
          }
          issued := issued + [DisplayMsg(TemperatureReading(sign, temp, fraction))];
          nextAction := Wrap32(ticks + SHOW_DELAY);
          stage := stage + 1;
        }
      } else if stage == LOOP_WAIT_NEXT_ACTION {
        if ticks >= nextAction {
          stage := LOOP_WRITE;
        }
      }
      // the WAIT_* stages: waiting for the callback
    }
  }
}

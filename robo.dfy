/**
 * Definitions shared by the controller programs: the constants of the
 * firmware header, the integer widths of the transfer area, the two-byte
 * copy of an INT16 used in Bluetooth messages, and the record of the calls
 * a program makes through the firmware's hook table.
 */
module Robo {

  type byte = x: int | 0 <= x < 0x100
  type int8 = x: int | -0x80 <= x < 0x80
  type int16 = x: int | -0x8000 <= x < 0x8000
  type uint16 = x: int | 0 <= x < 0x1_0000
  type uint32 = x: int | 0 <= x < 0x1_0000_0000

  /** The value an `unsigned int` (32 bits on the controller) holds after an assignment of `x`. */
  function Wrap32(x: int): (w: uint32)
    ensures 0 <= x < 0x1_0000_0000 ==> w == x
    ensures (w - x) % 0x1_0000_0000 == 0
  {
    x % 0x1_0000_0000
  }

  /** Return codes of PrgTic: keep calling the program, or stop it normally. */
  const RC_CONTINUE: int := 0x7FFF
  const RC_STOP: int := 0

  // Values assumed for the constants of the firmware header, which is not
  // part of this model. The proofs do not depend on the exact values, only
  // on these relations between them:
  //   DUTY_MIN <= 0 < DUTY_MAX;
  //   2 <= N_MOTOR <= N_CNT (MotorEx_2M_Master drives motors 0 and 1);
  //   2 * N_MOTOR <= N_PWM_CHAN (two PWM channels per motor);
  //   8 <= N_PWM_CHAN (WarningLight's lamp is channel 7, LightRun's six
  //   lamps are channels 0..5);
  //   the three Bluetooth codes are distinct and non-negative.
  const DUTY_MAX: int16 := 512
  const DUTY_MIN: int16 := 0
  const N_MOTOR: int := 4
  const N_CNT: int := 4
  /** Number of PWM output channels: two per motor. */
  const N_PWM_CHAN: int := 8

  const BT_SUCCESS: int8 := 0
  const BT_CON_INDICATION: int8 := 11
  const BT_MSG_INDICATION: int8 := 13
  /** The value a status variable holds while no result has been reported. */
  const STATUS_PENDING: int8 := -1

  const LIGHT_ON: int := DUTY_MAX as int
  const LIGHT_OFF: int := 0

  /** The commands a Bluetooth status display refers to (enum bt_commands_e). */
  datatype BtCmd = CmdNoCmd | CmdConnect | CmdStartListen | CmdStartReceive | CmdSend

  /** Display output, recorded by kind only: the text itself is not modelled. */
  datatype Message =
    | PressButtonPrompt
    | PositionReached
    | ThermopileReadings(ambient: byte, pixels: seq<byte>)
    | TemperatureReading(sign: char, whole: int, fraction: int)

  /**
   * One call a program makes through the hook table. The asynchronous ones
   * are answered later through a callback; the display ones are synchronous.
   * `peer` is the index into the firmware's table of Bluetooth addresses.
   */
  datatype Event =
    | BtConnect(channel: int, peer: int)
    | BtStartListen(channel: int, peer: int)
    | BtStartReceive(channel: int)
    | BtSend(channel: int, msg: seq<byte>)
    | I2cRead(address: int, offset: int, flags: int)
    | I2cWrite(address: int, offset: int, data: int, flags: int)
    | DisplayMsg(text: Message)
    | DisplayClear
  {
    predicate IsAsync() {
      !DisplayMsg? && !DisplayClear?
    }
  }

  /**
   * The result of evaluating the statements under one case label of a
   * PrgTic switch: either a break (which ends the tick with a return code)
   * or a fall-through into the next label of the text.
   */
  datatype CaseResult<S> =
    | Break(state: S, rc: int, events: seq<Event>)
    | FallThrough(state: S, events: seq<Event>)

  /** The result of a whole tick or callback: the new statics, the return code, the hook calls made. */
  datatype Outcome<S> = Outcome(state: S, rc: int, events: seq<Event>)

  /** An outcome with `evs` issued before its own events. */
  function Prefixed<S>(evs: seq<Event>, o: Outcome<S>): Outcome<S>
  {
    Outcome(o.state, o.rc, evs + o.events)
  }

  lemma PrefixedTwice<S>(a: seq<Event>, b: seq<Event>, o: Outcome<S>)
    ensures Prefixed(a, Prefixed(b, o)) == Prefixed(a + b, o)
  {
    assert a + (b + o.events) == (a + b) + o.events;
  }

  /** The number of asynchronous commands among `evs`. */
  function AsyncCount(evs: seq<Event>): nat
  {
    if evs == [] then 0
    else (if evs[0].IsAsync() then 1 else 0) + AsyncCount(evs[1..])
  }

  lemma AsyncCountSmall()
    ensures AsyncCount([]) == 0
    ensures forall e: Event :: AsyncCount([e]) == (if e.IsAsync() then 1 else 0)
  {
    forall e: Event ensures AsyncCount([e]) == (if e.IsAsync() then 1 else 0) {
      assert [e][1..] == [];
    }
  }

  lemma {:induction false} AsyncCountAppend(a: seq<Event>, b: seq<Event>)
    ensures AsyncCount(a + b) == AsyncCount(a) + AsyncCount(b)
  {
    if a == [] {
      assert a + b == b;
    } else {
      assert (a + b)[1..] == a[1..] + b;
      AsyncCountAppend(a[1..], b);
    }
  }

  /**
   * The two bytes an INT16 occupies in a message: two's complement, low
   * byte first, as the controller's memcpy lays it out.
   */
  function EncodeInt16(v: int16): (b: seq<byte>)
    ensures |b| == 2
    ensures (b[0] + 0x100 * b[1] - v) % 0x1_0000 == 0
    ensures b[1] >= 0x80 <==> v < 0
  {
    var u: int := if v < 0 then v + 0x1_0000 else v;
    [u % 0x100, u / 0x100]
  }

  /** The INT16 that a memcpy from two message bytes produces. */
  function DecodeInt16(b: seq<byte>): (v: int16)
    requires |b| == 2
    ensures (b[0] + 0x100 * b[1] - v) % 0x1_0000 == 0
    ensures v < 0 <==> b[1] >= 0x80
  {
    var u: int := b[0] as int + 0x100 * (b[1] as int);
    if u >= 0x8000 then u - 0x1_0000 else u
  }

  lemma DecodeEncodeInt16(v: int16)
    ensures DecodeInt16(EncodeInt16(v)) == v
  {
    var u: int := if v < 0 then v + 0x1_0000 else v;
    assert u % 0x100 + 0x100 * (u / 0x100) == u;
  }

  lemma EncodeDecodeInt16(b: seq<byte>)
    requires |b| == 2
    ensures EncodeInt16(DecodeInt16(b)) == b
  {
    var u: int := b[0] as int + 0x100 * (b[1] as int);
    assert u % 0x100 == b[0] && u / 0x100 == b[1];
  }

  /** The conversion of a UINT16 transfer-area value to an INT16 variable (two's complement). */
  function ToInt16(u: uint16): (v: int16)
    ensures u < 0x8000 ==> v == u
    ensures v < 0 <==> u >= 0x8000
    ensures (v - u) % 0x1_0000 == 0
  {
    if u >= 0x8000 then u - 0x1_0000 else u
  }

  /** The value an INT16 variable holds after an assignment of `x` (two's complement wrap-around). */
  function Wrap16(x: int): (v: int16)
    ensures -0x8000 <= x < 0x8000 ==> v == x
    ensures (v - x) % 0x1_0000 == 0
  {
    ToInt16(x % 0x1_0000)
  }
}

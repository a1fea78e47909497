/**
 * The three-byte exchange between the two halves of the Bluetooth "stop and
 * go": a request {motor 1, INT16 duty} from the button side, a reply
 * {counter 1, INT16 counter value} from the motor side. The lemmas connect
 * what one side sends with what the other side's receive callback makes of it.
 */
module StopGoProtocol {
  import opened Robo
  import Button = StopGoBtButtonPart
  import Motor = StopGoBtMotorPart

  /**
   * A request built by the button side and delivered to the motor side's
   * receive callback drives motor M1 at DUTY_MAX exactly when the button is
   * pressed and stops it otherwise, turns the reverse channel off, leaves
   * every other channel alone, and is answered with C1's counter.
   */
  lemma RequestDrivesMotor(m: Motor.State, level: int16, counters: seq<uint16>)
    requires Motor.WellFormed(m) && |counters| == N_CNT
    ensures var r := Motor.OnReceive(m, BT_MSG_INDICATION, Button.Request(Button.ButtonDuty(level)), counters);
      && (r.state.duty[0] == DUTY_MAX <==> level != 0)
      && (r.state.duty[0] == 0 <==> level == 0)
      && r.state.duty[1] == 0
      && (forall i :: 2 <= i < N_PWM_CHAN ==> r.state.duty[i] == m.duty[i])
      && r.events == [BtSend(Motor.BT_CHANNEL, Motor.Reply(1, counters[0]))]
  {
    var msg := Button.Request(Button.ButtonDuty(level));
    DecodeEncodeInt16(Button.ButtonDuty(level));
    assert msg[1..3] == EncodeInt16(Button.ButtonDuty(level));
    Motor.ReceiveAppliesDutyAndReplies(m, msg, counters);
  }

  /** The last request, sent once the threshold is reached, carries duty 0: it stops the motor. */
  lemma FinalRequestStopsMotor(m: Motor.State, counters: seq<uint16>)
    requires Motor.WellFormed(m) && |counters| == N_CNT
    ensures var r := Motor.OnReceive(m, BT_MSG_INDICATION, Button.Request(0), counters);
      r.state.duty[0] == 0 && r.state.duty[1] == 0
  {
    DecodeEncodeInt16(0);
    assert Button.Request(0)[1..3] == EncodeInt16(0);
  }

  /**
   * A reply built by the motor side and delivered to the button side's
   * receive callback sets the remote counter to C1's value read as an INT16.
   */
  lemma ReplyReportsCounter(b: Button.State, counter: uint16)
    ensures var t := Button.OnReceive(b, BT_MSG_INDICATION, Motor.Reply(Motor.MOTOR_NUMBER, counter));
      && t.remoteCounterValue == ToInt16(counter)
      && (counter < 0x8000 ==> t.remoteCounterValue == counter)
      && t.wasReceive
  {
    var msg := Motor.Reply(Motor.MOTOR_NUMBER, counter);
    DecodeEncodeInt16(ToInt16(counter));
    assert msg[1..3] == EncodeInt16(ToInt16(counter));
  }

  /**
   * A counter value at or above the button side's threshold, and below
   * 0x8000, reported through a reply, is seen as reaching the threshold.
   */
  lemma ReplyAtThresholdIsSeen(b: Button.State, counter: uint16)
    requires Button.THRESHOLD <= counter < 0x8000
    ensures Button.OnReceive(b, BT_MSG_INDICATION, Motor.Reply(Motor.MOTOR_NUMBER, counter)).remoteCounterValue
      >= Button.THRESHOLD
  {
    ReplyReportsCounter(b, counter);
  }
}

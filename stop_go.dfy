/**
 * "Stop and go" on one controller: motor M1 runs while button I8 is
 * pressed, and the program ends once counter C1 has reached 1000.
 *
 * Every tick, once the firmware has reset the counter and while the
 * display is idle, the button level is read; a change of level updates the
 * display (a prompt on release, a cleared screen on press) and the motor's
 * duty follows the level. The display helper IsDisplayBeingRefreshed is
 * asked twice per tick; its two answers are the tick inputs `refreshing1`
 * and `refreshing2`.
 */
module StopGo {
  import opened Robo

  const THRESHOLD: int := 1000

  /** The program's static and the transfer-area cells it writes. */
  datatype State = State(
    prevButtonState: int16,
    duty: seq<int>,
    cntResetted: bool,
    cntResetCmdId: nat)

  predicate Valid(s: State)
  {
    |s.duty| == N_PWM_CHAN
  }

  /** What one tick reads: button I8's level, counter C1, and the display helper's two answers. */
  datatype TickIn = TickIn(button: int16, counter: uint16, refreshing1: bool, refreshing2: bool)

  /** The display action for a change of the button level from `prev` to `cur`. */
  function EdgeDisplay(prev: int16, cur: int16): (e: seq<Event>)
    ensures |e| <= 1 && (e == [] <==> prev == cur)
    ensures e == [DisplayMsg(PressButtonPrompt)] <==> prev != 0 && cur == 0
    ensures e == [DisplayClear] <==> prev != cur && (prev == 0 || cur != 0)
  {
    if prev == cur then []
    else if prev != 0 && cur == 0 then [DisplayMsg(PressButtonPrompt)]
    else [DisplayClear]
  }

  /** One PrgTic call. */
  function Step(s: State, inp: TickIn): (o: Outcome<State>)
    requires Valid(s)
    ensures Valid(o.state) && (o.rc == RC_STOP || o.rc == RC_CONTINUE)
    ensures o.state.cntResetted == s.cntResetted && o.state.cntResetCmdId == s.cntResetCmdId
    ensures forall i :: 1 <= i < N_PWM_CHAN ==> o.state.duty[i] == s.duty[i]
  {
    if !s.cntResetted then Outcome(s, RC_CONTINUE, [])
    else
      var followed :=
        if inp.refreshing1 then s
        else s.(prevButtonState := inp.button,
                duty := s.duty[0 := if inp.button != 0 then DUTY_MAX as int else 0]);
      var shown := if inp.refreshing1 then [] else EdgeDisplay(s.prevButtonState, inp.button);
      var reached := !inp.refreshing2 && inp.counter >= THRESHOLD;
      Outcome(followed, if reached then RC_STOP else RC_CONTINUE,
              shown + (if reached then [DisplayMsg(PositionReached)] else []))
  }

  const Zero: State := State(0, seq(N_PWM_CHAN, _ => 0), false, 0)

  /** PrgInit: request a reset of counter C1 and pretend the button was pressed. */
  function Init(s: State): (t: State)
    ensures !t.cntResetted && t.cntResetCmdId == s.cntResetCmdId + 1
    ensures t.prevButtonState != 0 && t.duty == s.duty
  {
    s.(cntResetted := false, cntResetCmdId := s.cntResetCmdId + 1, prevButtonState := 1)
  }

  /** The firmware completes the requested reset of counter C1. */
  function OnCounterReset(s: State): (t: State)
    ensures t.cntResetted && t.cntResetCmdId == s.cntResetCmdId
    ensures t.prevButtonState == s.prevButtonState && t.duty == s.duty
  {
    s.(cntResetted := true)
  }

  // ---------------------------------------------------------------------
  // Properties

  lemma InitRequestsReset(s: State)
    ensures var t := Init(s);
      t.prevButtonState == 1 && !t.cntResetted && t.cntResetCmdId == s.cntResetCmdId + 1 && t.duty == s.duty
  {
  }

  /** Until the counter has been reset, a tick writes nothing, shows nothing and continues. */
  lemma NothingBeforeReset(s: State, inp: TickIn)
    requires Valid(s) && !s.cntResetted
    ensures Step(s, inp) == Outcome(s, RC_CONTINUE, [])
  {
  }

  /**
   * The remembered level changes only when the level read differs from it,
   * and then becomes that level.
   */
  lemma PrevTracksLevel(s: State, inp: TickIn)
    requires Valid(s)
    ensures var t := Step(s, inp).state;
      && (t.prevButtonState != s.prevButtonState ==>
            s.cntResetted && !inp.refreshing1 && t.prevButtonState == inp.button)
      && (s.cntResetted && !inp.refreshing1 ==> t.prevButtonState == inp.button)
  {
  }

  /**
   * A release (nonzero to zero) shows the prompt, a press clears the
   * display, a steady level does nothing to the display; the motor's duty
   * is DUTY_MAX exactly when the level is nonzero, and no other output changes.
   */
  lemma ButtonDrivesMotor(s: State, inp: TickIn)
    requires Valid(s) && s.cntResetted && !inp.refreshing1
    ensures var o := Step(s, inp);
      && (s.prevButtonState != 0 && inp.button == 0 ==> o.events[0] == DisplayMsg(PressButtonPrompt))
      && (s.prevButtonState != inp.button && !(s.prevButtonState != 0 && inp.button == 0) ==> o.events[0] == DisplayClear)
      && (s.prevButtonState == inp.button ==> forall e :: e in o.events ==> e == DisplayMsg(PositionReached))
      && (o.state.duty[0] == DUTY_MAX <==> inp.button != 0)
      && (o.state.duty[0] == 0 <==> inp.button == 0)
      && (forall i :: 1 <= i < N_PWM_CHAN ==> o.state.duty[i] == s.duty[i])
  {
  }

  /** While the display is busy at the first question, neither the level nor the outputs are touched. */
  lemma BusyDisplaySkipsButton(s: State, inp: TickIn)
    requires Valid(s) && inp.refreshing1
    ensures Step(s, inp).state == s
  {
  }

  /** The tick returns STOP exactly when the counter has been reset, has reached 1000, and the display is idle. */
  lemma StopsAtThreshold(s: State, inp: TickIn)
    requires Valid(s)
    ensures var o := Step(s, inp);
      && (o.rc == RC_STOP <==> s.cntResetted && inp.counter >= THRESHOLD && !inp.refreshing2)
      && (o.rc == RC_STOP || o.rc == RC_CONTINUE)
      && (o.rc == RC_STOP ==> o.events[|o.events| - 1] == DisplayMsg(PositionReached))
  {
  }

  // ---------------------------------------------------------------------
  // The program's static and transfer-area cells, updated in place

  class StopGo {
    var prevButtonState: int16
    /** output.duty: the PWM duty of each output channel. */
    const duty: array<int>
    /** input.cnt_resetted[0]: set by the firmware once counter C1 has been reset. */
    var cntResetted: bool
    /** output.cnt_reset_cmd_id[0]. */
    var cntResetCmdId: nat
    /** The display calls made so far, oldest first. */
    var issued: seq<Event>

    function Snapshot(): State
      reads this, duty
    {
      State(prevButtonState, duty[..], cntResetted, cntResetCmdId)
    }

    constructor ()
      ensures Snapshot() == Zero && issued == [] && duty.Length == N_PWM_CHAN
    {
      prevButtonState := 0;
      duty := new int[N_PWM_CHAN](_ => 0);
      cntResetted, cntResetCmdId := false, 0;
      issued := [];
    }

    method PrgInit()
      modifies this
      ensures Snapshot() == Init(old(Snapshot())) && issued == old(issued)
    {
      cntResetted := false;
      cntResetCmdId := cntResetCmdId + 1;
      prevButtonState := 1;
    }

    /** The firmware finishes resetting counter C1 and reports it in the transfer area. */
    method CounterResetDone()
      modifies this
      ensures Snapshot() == OnCounterReset(old(Snapshot())) && issued == old(issued)
    {
      cntResetted := true;
    }

    method PrgTic(button: int16, counter: uint16, refreshing1: bool, refreshing2: bool) returns (rc: int)
      requires duty.Length == N_PWM_CHAN
      modifies this, duty
      ensures var o := Step(old(Snapshot()), TickIn(button, counter, refreshing1, refreshing2));
        Snapshot() == o.state && rc == o.rc && issued == old(issued) + o.events
    {
      rc := RC_CONTINUE;
      if cntResetted {
        if !refreshing1 {
          var curButtonState := button;
          if prevButtonState != curButtonState {
            if prevButtonState != 0 && curButtonState == 0 {
              issued := issued + [DisplayMsg(PressButtonPrompt)];
            } else {
              issued := issued + [DisplayClear];
            }
            prevButtonState := curButtonState;
          }
          duty[0] := if curButtonState != 0 then DUTY_MAX as int else 0;
        }
        if !refreshing2 {
          if counter >= THRESHOLD {
            issued := issued + [DisplayMsg(PositionReached)];
            rc := RC_STOP;
          }
        }
      }
    }
  }
}

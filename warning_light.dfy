/**
 * A warning light driven by an ultrasonic distance sensor on input I1: the
 * closer an obstacle, the faster the lamp on output O8 flashes; beyond 20
 * units the lamp is off.
 *
 * The flash timing uses the 10 ms timer of the transfer area, read into an
 * INT16 (`timer` in the tick input). The program remembers in `cmpVal` the
 * timer reading of the last switch and switches the lamp once a flash
 * interval has elapsed since then. The comparison the program makes
 * (`cmpVal + interval > timer`, "not yet") stops working once the timer
 * reading wraps around. `DueAsWritten` models it, and `StepAsWritten`
 * and the class's tick follow it; `Due` is the wrap-around-safe
 * comparison, and `Step` is the corrected tick that uses it.
 */
module WarningLight {
  import opened Robo

  const LAMP_IDX: int := 7

  /** The program's statics and the transfer-area cell it writes. */
  datatype State = State(isLightOn: bool, cmpVal: int16, duty: seq<int>)

  predicate Valid(s: State)
  {
    |s.duty| == N_PWM_CHAN
  }

  /** What one tick reads: the distance on I1 and the 10 ms timer as an INT16. */
  datatype TickIn = TickIn(distance: int16, timer: int16)

  /** The lamp output agrees with the remembered lamp state. */
  predicate LampMatches(s: State)
    requires Valid(s)
  {
    s.duty[LAMP_IDX] == (if s.isLightOn then LIGHT_ON else LIGHT_OFF)
  }

  /** The flash interval, in units of 10 ms, for a distance; 0 means "no flashing". */
  function FlashInterval(distance: int16): (f: int16)
    ensures 0 <= f <= 75
  {
    if distance > 20 then 0
    else if distance > 15 then 75
    else if distance > 10 then 50
    else if distance > 5 then 25
    else 10
  }

  /** The program's test that an interval has elapsed: the negation of `cmpVal + tmDiff > tmVal`. */
  predicate DueAsWritten(cmpVal: int16, tmVal: int16, tmDiff: int16)
    ensures tmDiff <= 0 && cmpVal <= tmVal ==> DueAsWritten(cmpVal, tmVal, tmDiff)
    ensures cmpVal + tmDiff > 0x7FFF ==> !DueAsWritten(cmpVal, tmVal, tmDiff)
  {
    cmpVal + tmDiff <= tmVal
  }

  /** At least `tmDiff` timer units have elapsed since `cmpVal`, counting modulo the timer's 16 bits. */
  predicate Due(cmpVal: int16, tmVal: int16, tmDiff: int16)
    ensures tmDiff <= 0 ==> Due(cmpVal, tmVal, tmDiff)
    ensures tmDiff > 0 && tmVal == cmpVal ==> !Due(cmpVal, tmVal, tmDiff)
  {
    (tmVal - cmpVal) % 0x1_0000 >= tmDiff
  }

  /**
   * The effect of SetFlashLight given the outcome `due` of its elapsed-time
   * test: the new state of the lamp and the value it returns for `cmpVal`.
   * The `cmpVal` field of the state is left to the caller.
   */
  function Flashed(s: State, cmpVal: int16, tmVal: int16, tmDiff: int16, due: bool): (r: (State, int16))
    requires Valid(s)
    ensures Valid(r.0) && r.0.cmpVal == s.cmpVal
    ensures r.1 == (if tmDiff != 0 && !due then cmpVal else tmVal)
  {
    if tmDiff == 0 then (s.(isLightOn := false, duty := s.duty[LAMP_IDX := LIGHT_OFF]), tmVal)
    else if !due then (s, cmpVal)
    else
      var on := !s.isLightOn;
      (s.(isLightOn := on, duty := s.duty[LAMP_IDX := if on then LIGHT_ON else LIGHT_OFF]), tmVal)
  }

  /** One PrgTic call as the program is written; it always returns RC_CONTINUE. */
  function StepAsWritten(s: State, inp: TickIn): (t: State)
    requires Valid(s)
    ensures Valid(t)
    ensures t.cmpVal == inp.timer || t == s
  {
    var tmDiff := FlashInterval(inp.distance);
    var (t, c) := Flashed(s, s.cmpVal, inp.timer, tmDiff, DueAsWritten(s.cmpVal, inp.timer, tmDiff));
    t.(cmpVal := c)
  }

  /** One PrgTic call with the wrap-around-safe elapsed-time test; it always returns RC_CONTINUE. */
  function Step(s: State, inp: TickIn): (t: State)
    requires Valid(s)
    ensures Valid(t)
    ensures t.cmpVal == inp.timer || t == s
  {
    var tmDiff := FlashInterval(inp.distance);
    var (t, c) := Flashed(s, s.cmpVal, inp.timer, tmDiff, Due(s.cmpVal, inp.timer, tmDiff));
    t.(cmpVal := c)
  }

  const Zero: State := State(false, 0, seq(N_PWM_CHAN, _ => 0))

  /** PrgInit: the lamp is taken to be off and the timing starts at the current timer reading. */
  function Init(s: State, timer: int16): (t: State)
    ensures !t.isLightOn && t.cmpVal == timer && t.duty == s.duty
  {
    s.(isLightOn := false, cmpVal := timer)
  }

  // ---------------------------------------------------------------------
  // Properties

  /** The interval bands: none beyond 20, then 750, 500, 250 and 100 ms as the obstacle comes closer. */
  lemma FlashIntervalBands(d: int16)
    ensures FlashInterval(d) == 0 <==> d > 20
    ensures FlashInterval(d) == 75 <==> 15 < d <= 20
    ensures FlashInterval(d) == 50 <==> 10 < d <= 15
    ensures FlashInterval(d) == 25 <==> 5 < d <= 10
    ensures FlashInterval(d) == 10 <==> d <= 5
  {
  }

  /** Within the warning range, a closer obstacle never gives a longer interval. */
  lemma FlashIntervalMonotone(a: int16, b: int16)
    requires a <= b <= 20
    ensures 0 < FlashInterval(a) <= FlashInterval(b)
  {
  }

  /**
   * SetFlashLight's three outcomes: no interval switches the lamp off and
   * restarts the timing; an interval not yet elapsed changes nothing and
   * keeps `cmpVal`; an elapsed interval switches the lamp over, sets the
   * output to match, and restarts the timing at the current reading.
   */
  lemma FlashedCases(s: State, cmpVal: int16, tmVal: int16, tmDiff: int16, due: bool)
    requires Valid(s)
    ensures var (t, c) := Flashed(s, cmpVal, tmVal, tmDiff, due);
      && Valid(t) && t.cmpVal == s.cmpVal
      && (tmDiff == 0 ==> !t.isLightOn && t.duty[LAMP_IDX] == LIGHT_OFF && c == tmVal)
      && (tmDiff != 0 && !due ==> t == s && c == cmpVal)
      && (tmDiff != 0 && due ==> t.isLightOn == !s.isLightOn && LampMatches(t) && c == tmVal)
      && (forall i :: 0 <= i < N_PWM_CHAN && i != LAMP_IDX ==> t.duty[i] == s.duty[i])
  {
  }

  /** PrgInit on a transfer area whose lamp is off starts with output and state in agreement. */
  lemma InitLampMatches(s: State, timer: int16)
    requires Valid(s) && s.duty[LAMP_IDX] == LIGHT_OFF
    ensures Valid(Init(s, timer)) && LampMatches(Init(s, timer)) && Init(s, timer).cmpVal == timer
  {
  }

  /** Every tick keeps the lamp output in agreement with the remembered state. */
  lemma StepKeepsLampMatching(s: State, inp: TickIn)
    requires Valid(s) && LampMatches(s)
    ensures Valid(Step(s, inp)) && LampMatches(Step(s, inp))
    ensures Valid(StepAsWritten(s, inp)) && LampMatches(StepAsWritten(s, inp))
  {
  }

  /** Far from any obstacle the lamp is off after every tick. */
  lemma FarMeansOff(s: State, inp: TickIn)
    requires Valid(s) && inp.distance > 20
    ensures !StepAsWritten(s, inp).isLightOn && StepAsWritten(s, inp).duty[LAMP_IDX] == LIGHT_OFF
    ensures StepAsWritten(s, inp).cmpVal == inp.timer
    ensures !Step(s, inp).isLightOn && Step(s, inp).duty[LAMP_IDX] == LIGHT_OFF
    ensures Step(s, inp).cmpVal == inp.timer
  {
  }

  /** As long as the timer reading has not wrapped around since `cmpVal`, the two tests agree. */
  lemma AsWrittenAgreesWithoutWrap(cmpVal: int16, tmVal: int16, tmDiff: int16)
    requires 0 <= tmDiff && cmpVal <= tmVal
    ensures DueAsWritten(cmpVal, tmVal, tmDiff) <==> Due(cmpVal, tmVal, tmDiff)
  {
  }

  /**
   * As written, once `cmpVal + interval` exceeds the largest INT16, no timer
   * reading is late enough: while the distance stays in its band the lamp
   * never switches again.
   */
  lemma AsWrittenFreezes(s: State, inp: TickIn)
    requires Valid(s) && FlashInterval(inp.distance) != 0
    requires s.cmpVal + FlashInterval(inp.distance) > 0x7FFF
    ensures StepAsWritten(s, inp) == s
  {
  }

  /**
   * A concrete case: the lamp last switched at reading 32700 and the
   * obstacle is 18 units away (interval 75). At reading -32761, which is 75
   * units later once the timer has wrapped, the program leaves the lamp
   * alone while the corrected test switches it.
   */
  lemma AsWrittenMissesSwitch()
    ensures var s := State(false, 32700, seq(N_PWM_CHAN, _ => 0));
      var inp := TickIn(18, -32761);
      && StepAsWritten(s, inp) == s
      && Step(s, inp).isLightOn
  {
    var s := State(false, 32700, seq(N_PWM_CHAN, _ => 0));
    assert FlashInterval(18) == 75;
    assert (-32761 - 32700) % 0x1_0000 == 75;
  }

  /**
   * The corrected test: `k` timer units after `cmpVal` (fewer than the
   * timer's full 16-bit period), the interval counts as elapsed exactly when
   * `k` has reached it, whether or not the reading wrapped in between.
   */
  lemma DueAfterElapsed(cmpVal: int16, k: int, tmDiff: int16)
    requires 0 <= k < 0x1_0000
    ensures Due(cmpVal, Wrap16(cmpVal + k), tmDiff) <==> k >= tmDiff
  {
    var v := Wrap16(cmpVal + k);
    var q := (v - (cmpVal + k)) / 0x1_0000;
    assert v - (cmpVal + k) == q * 0x1_0000;
    assert v - cmpVal == k + q * 0x1_0000;
    ModuloOfShift(k, q);
  }

  lemma ModuloOfShift(k: int, q: int)
    requires 0 <= k < 0x1_0000
    ensures (k + q * 0x1_0000) % 0x1_0000 == k
  {
  }

  // ---------------------------------------------------------------------
  // The program's statics and the lamp output, updated in place

  class WarningLight {
    var isLightOn: bool
    var cmpVal: int16
    /** output.duty */
    const duty: array<int>

    function Snapshot(): State
      reads this, duty
    {
      State(isLightOn, cmpVal, duty[..])
    }

    constructor ()
      ensures Snapshot() == Zero && duty.Length == N_PWM_CHAN
    {
      isLightOn, cmpVal := false, 0;
      duty := new int[N_PWM_CHAN](_ => 0);
    }

    /** PrgInit, given the timer reading at that moment. */
    method PrgInit(timer: int16)
      modifies this
      ensures Snapshot() == Init(old(Snapshot()), timer)
    {
      isLightOn := false;
      cmpVal := timer;
    }

    /** Switches the lamp according to the time elapsed since `cmp`; returns the new compare value. */
    method SetFlashLight(cmp: int16, tmVal: int16, tmDiff: int16) returns (r: int16)
      requires duty.Length == N_PWM_CHAN
      modifies this, duty
      ensures (Snapshot(), r) == Flashed(old(Snapshot()), cmp, tmVal, tmDiff, DueAsWritten(cmp, tmVal, tmDiff))
    {
      if tmDiff == 0 {
        duty[LAMP_IDX] := LIGHT_OFF;
        isLightOn := false;
        return tmVal;
      }
      if cmp + tmDiff > tmVal {
        return cmp;
      }
      isLightOn := !isLightOn;
      duty[LAMP_IDX] := if isLightOn then LIGHT_ON else LIGHT_OFF;
      return tmVal;
    }

    method PrgTic(distance: int16, timer: int16) returns (rc: int)
      requires duty.Length == N_PWM_CHAN
      modifies this, duty
      ensures Snapshot() == StepAsWritten(old(Snapshot()), TickIn(distance, timer)) && rc == RC_CONTINUE
    {
      rc := RC_CONTINUE;
      var tmVal := timer;
      var tmFlash := FlashInterval(distance);
      var c := SetFlashLight(cmpVal, tmVal, tmFlash);
      cmpVal := c;
    }
  }
}

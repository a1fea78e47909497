/**
 * Polling a TPA81 thermopile array over I2C.
 *
 * PrgTic walks through a numbered sequence of stages. An issue stage starts
 * one I2C read and steps into the wait stage after it; only the I2C
 * callback leaves a wait stage, by storing the result and stepping the
 * stage once more. After the ambient temperature and the eight pixel
 * temperatures have been read, the display is cleared, the readings are
 * shown 20 ticks later, and 1000 ticks after that the reading round starts
 * again. Every switch case returns, so each tick runs exactly one case.
 *
 * `Step` is one PrgTic call and `OnI2c` one I2cCallback, on a value snapshot
 * of the program's globals; the class `Tpa81` holds the globals and is
 * proved to agree with them.
 */
module I2cTpa81 {
  import opened Robo

  /** The I2C address of the TPA81 and the flags of every read. */
  const ADDRESS: int := 0x68
  const READ_FLAGS: int := 0xA5
  /** Ticks between clearing the display and showing the readings, and between two rounds. */
  const CLEAR_DELAY: nat := 20
  const SHOW_DELAY: nat := 1000

  // The stages, numbered as in the program's enum.
  const INIT_1: nat := 0
  const WAIT_1: nat := 1
  const LOOP_READ_AMB: nat := 2
  const LOOP_READ_P8_WAIT: nat := 19
  const LOOP_CLEAR_PREV_SCREEN: nat := 20
  const LOOP_DISP_RESULT: nat := 21
  const LOOP_WAIT_NEXT_ACTION: nat := 22

  /** Values of `pidx`: where the callback stores what it is given. */
  const PIDX_NONE: byte := 255
  const PIDX_AMBIENT: byte := 128

  /** The read stages LOOP_READ_AMB, LOOP_READ_P1 .. LOOP_READ_P8. */
  predicate IsReadStage(st: nat)
  {
    LOOP_READ_AMB <= st <= LOOP_READ_P8_WAIT - 1 && st % 2 == 0
  }

  /** The stages that wait for the I2C callback: WAIT_1 and the nine LOOP_READ_*_WAIT. */
  predicate IsWaitStage(st: nat)
  {
    st == WAIT_1 || (LOOP_READ_AMB < st <= LOOP_READ_P8_WAIT && st % 2 == 1)
  }

  /** Which reading a read stage fetches: 0 for the ambient temperature, k for pixel k. */
  function ReadIndex(st: nat): (k: nat)
    requires IsReadStage(st)
    ensures k < 9
  {
    (st - LOOP_READ_AMB) / 2
  }

  /** The TPA81 register of reading k: 0x01 for the ambient temperature, 0x01 + k for pixel k. */
  function Register(k: nat): int
  {
    0x01 + k
  }

  /** The `pidx` a read stage sets for reading k: the ambient marker, or the pixel's array index. */
  function PixelIndex(k: nat): byte
    requires k < 9
  {
    if k == 0 then PIDX_AMBIENT else k - 1
  }

  /** The program's globals. */
  datatype State = State(
    stage: nat,
    ticks: uint32,
    nextAction: uint32,
    status: uint16,
    value: uint16,
    amb: byte,
    p: seq<byte>,
    pidx: byte)

  /** A stage of the enum, eight pixels, and a `pidx` that is the ambient marker, "none" or a pixel index. */
  predicate Valid(s: State)
  {
    && s.stage <= LOOP_WAIT_NEXT_ACTION
    && |s.p| == 8
    && (s.pidx == PIDX_NONE || s.pidx == PIDX_AMBIENT || s.pidx < 8)
  }

  /** The globals before PrgInit: as initialised by their declarations. */
  const Zero: State := State(INIT_1, 0, 0, 0, 0, 0, seq(8, _ => 0), PIDX_NONE)

  /** PrgInit. */
  function Init(s: State): (t: State)
    ensures Valid(s) ==> Valid(t)
    ensures t.stage == INIT_1 && t.ticks == 0
    ensures t.amb == s.amb && t.p == s.p && t.pidx == s.pidx && t.nextAction == s.nextAction
  {
    s.(ticks := 0, stage := INIT_1)
  }

  /** One PrgTic call: count the tick, then run the case of the current stage. */
  function Step(s: State): (o: Outcome<State>)
    requires Valid(s)
    ensures Valid(o.state) && o.rc == RC_CONTINUE && o.state.ticks == Wrap32(s.ticks + 1)
    ensures |o.events| <= 1
  {
    var t := s.(ticks := Wrap32(s.ticks + 1));
    var st := s.stage;
    if st == INIT_1 then
      Outcome(t.(stage := st + 1), RC_CONTINUE, [I2cRead(ADDRESS, 0x00, READ_FLAGS)])
    else if IsReadStage(st) then
      var k := ReadIndex(st);
      Outcome(t.(pidx := PixelIndex(k), stage := st + 1), RC_CONTINUE, [I2cRead(ADDRESS, Register(k), READ_FLAGS)])
    else if st == LOOP_CLEAR_PREV_SCREEN then
      Outcome(t.(nextAction := Wrap32(t.ticks + CLEAR_DELAY), stage := st + 1), RC_CONTINUE, [DisplayClear])
    else if st == LOOP_DISP_RESULT then
      if t.ticks >= t.nextAction then
        Outcome(t.(nextAction := Wrap32(t.ticks + SHOW_DELAY), stage := st + 1), RC_CONTINUE,
                [DisplayMsg(ThermopileReadings(t.amb, t.p))])
      else Outcome(t, RC_CONTINUE, [])
    else if st == LOOP_WAIT_NEXT_ACTION then
      Outcome(if t.ticks >= t.nextAction then t.(stage := LOOP_READ_AMB) else t, RC_CONTINUE, [])
    else
      Outcome(t, RC_CONTINUE, [])
  }

  /** I2cCallback, which answers the read started by the last issue stage. */
  function OnI2c(s: State, status: uint16, value: uint16): (t: State)
    requires Valid(s) && IsWaitStage(s.stage)
    ensures Valid(t) && t.stage == s.stage + 1 && t.status == status && t.value == value
    ensures t.ticks == s.ticks && t.nextAction == s.nextAction && t.pidx == s.pidx
  {
    var r := s.(status := status, value := value);
    var stored :=
      if s.pidx == PIDX_AMBIENT then r.(amb := value % 0x100)
      else if s.pidx != PIDX_NONE then r.(p := r.p[s.pidx := value % 0x100])
      else r;
    stored.(stage := s.stage + 1)
  }

  /** What the firmware hands the callback. */
  datatype I2cResult = I2cResult(status: uint16, value: uint16)

  /** A read stage's tick followed by the callback that answers its read. */
  function ReadCycle(s: State, r: I2cResult): State
    requires Valid(s) && IsReadStage(s.stage)
  {
    OnI2c(Step(s).state, r.status, r.value)
  }

  /** The read stages from `s` on, each answered by the next result of `rs`, up to LOOP_CLEAR_PREV_SCREEN. */
  function ReadRound(s: State, rs: seq<I2cResult>): State
    requires Valid(s) && IsReadStage(s.stage) && |rs| == 9 - ReadIndex(s.stage)
    decreases |rs|
  {
    var t := ReadCycle(s, rs[0]);
    if |rs| == 1 then t else ReadRound(t, rs[1..])
  }

  /** Reading k as stored in the globals: the ambient temperature, or pixel k. */
  function Slot(s: State, k: nat): byte
    requires Valid(s) && k < 9
  {
    if k == 0 then s.amb else s.p[k - 1]
  }

  // ---------------------------------------------------------------------
  // Properties of one tick and of the callback

  /** The tick and the callback keep the stage within the enum and `pidx` a valid index or marker. */
  lemma StepKeepsValid(s: State)
    requires Valid(s)
    ensures Valid(Step(s).state)
  {
  }

  lemma CallbackKeepsValid(s: State, status: uint16, value: uint16)
    requires Valid(s) && IsWaitStage(s.stage)
    ensures Valid(OnI2c(s, status, value))
  {
  }

  /**
   * The callback stores status and value and steps the stage once; the low
   * byte of the value goes to `amb` when pidx is the ambient marker, to
   * p[pidx] when pidx is a pixel index, and nowhere when pidx is "none".
   */
  lemma CallbackStores(s: State, status: uint16, value: uint16)
    requires Valid(s) && IsWaitStage(s.stage)
    ensures var t := OnI2c(s, status, value);
      && t.stage == s.stage + 1 && t.status == status && t.value == value
      && t.ticks == s.ticks && t.nextAction == s.nextAction && t.pidx == s.pidx
      && (s.pidx == PIDX_AMBIENT ==> t.amb == value % 0x100 && t.p == s.p)
      && (s.pidx < 8 ==> t.amb == s.amb && t.p == s.p[s.pidx := value % 0x100])
      && (s.pidx == PIDX_NONE ==> t.amb == s.amb && t.p == s.p)
  {
  }

  /** INIT_1 starts one read of register 0x00 and moves to WAIT_1. */
  lemma InitStageReads(s: State)
    requires Valid(s) && s.stage == INIT_1
    ensures Step(s) == Outcome(s.(ticks := Wrap32(s.ticks + 1), stage := WAIT_1), RC_CONTINUE,
                               [I2cRead(ADDRESS, 0x00, READ_FLAGS)])
  {
  }

  /**
   * A read stage for reading k starts one read of register 0x01 + k at
   * the TPA81, points pidx at where the answer belongs, and moves to the
   * wait stage after it; nothing else changes but the tick count.
   */
  lemma ReadStageReads(s: State)
    requires Valid(s) && IsReadStage(s.stage)
    ensures var o := Step(s);
      var k := ReadIndex(s.stage);
      && o.events == [I2cRead(ADDRESS, 0x01 + k, READ_FLAGS)]
      && o.state == s.(ticks := Wrap32(s.ticks + 1), pidx := PixelIndex(k), stage := s.stage + 1)
      && IsWaitStage(o.state.stage)
      && (k == 0 <==> o.state.pidx == PIDX_AMBIENT)
      && (k > 0 ==> o.state.pidx == k - 1)
  {
  }

  /** A tick in a wait stage only counts the tick: only the callback leaves a wait stage. */
  lemma WaitStagesHold(s: State)
    requires Valid(s) && IsWaitStage(s.stage)
    ensures Step(s) == Outcome(s.(ticks := Wrap32(s.ticks + 1)), RC_CONTINUE, [])
  {
  }

  /** Every tick counts itself, issues at most one I2C read, and continues the program. */
  lemma EveryTickCountsAndContinues(s: State)
    requires Valid(s)
    ensures var o := Step(s);
      && o.state.ticks == Wrap32(s.ticks + 1)
      && o.rc == RC_CONTINUE
      && |o.events| <= 1
      && AsyncCount(o.events) <= 1
      && (AsyncCount(o.events) == 1 <==> s.stage == INIT_1 || IsReadStage(s.stage))
  {
    AsyncCountSmall();
  }

  /**
   * The display timing: clearing sets next_action 20 ticks ahead; the
   * readings are shown only once the tick count reaches next_action, which
   * then moves 1000 ticks ahead; the next round starts only once the tick
   * count reaches it again.
   */
  lemma DisplayTiming(s: State)
    requires Valid(s)
    ensures var o := Step(s);
      var now := Wrap32(s.ticks + 1);
      && (s.stage == LOOP_CLEAR_PREV_SCREEN ==>
            o.events == [DisplayClear] && o.state.nextAction == Wrap32(now + CLEAR_DELAY)
            && o.state.stage == LOOP_DISP_RESULT)
      && (s.stage == LOOP_DISP_RESULT ==>
            && (o.state.stage == LOOP_WAIT_NEXT_ACTION <==> now >= s.nextAction)
            && (now >= s.nextAction ==>
                  o.events == [DisplayMsg(ThermopileReadings(s.amb, s.p))]
                  && o.state.nextAction == Wrap32(now + SHOW_DELAY))
            && (now < s.nextAction ==> o.state == s.(ticks := now) && o.events == []))
      && (s.stage == LOOP_WAIT_NEXT_ACTION ==>
            && o.events == []
            && o.state == (if now >= s.nextAction then s.(ticks := now, stage := LOOP_READ_AMB) else s.(ticks := now)))
  {
  }

  /**
   * The deadlines wrap with `ticks`: a clear five ticks before the counter
   * wraps sets next_action to 15, so the result is shown on the very next
   * tick; that show sets next_action to 996, so the next round starts on
   * the tick after it, long before 1000 ticks have passed.
   */
  lemma DisplayTimingAtWrap(s: State)
    requires Valid(s) && s.stage == LOOP_CLEAR_PREV_SCREEN && s.ticks == 0xFFFF_FFFA
    ensures var t := Step(s).state; var u := Step(t).state;
      && t.nextAction == 15 && t.stage == LOOP_DISP_RESULT
      && u.stage == LOOP_WAIT_NEXT_ACTION && Step(t).events == [DisplayMsg(ThermopileReadings(s.amb, s.p))] && u.nextAction == 996
      && Step(u).state.stage == LOOP_READ_AMB
  {
  }

  // ---------------------------------------------------------------------
  // A whole reading round

  /**
   * From any read stage, the remaining read stages, each answered by its
   * callback, store the low byte of every answer in its own slot, leave
   * the earlier slots alone, and end in LOOP_CLEAR_PREV_SCREEN.
   */
  lemma {:induction false} ReadRoundStores(s: State, rs: seq<I2cResult>)
    requires Valid(s) && IsReadStage(s.stage) && |rs| == 9 - ReadIndex(s.stage)
    ensures var t := ReadRound(s, rs);
      var k0 := ReadIndex(s.stage);
      && Valid(t) && t.stage == LOOP_CLEAR_PREV_SCREEN && t.pidx == 7
      && (forall k :: k0 <= k < 9 ==> Slot(t, k) == rs[k - k0].value % 0x100)
      && (forall k :: 0 <= k < k0 ==> Slot(t, k) == Slot(s, k))
    decreases |rs|
  {
    var k0 := ReadIndex(s.stage);
    var t1 := ReadCycle(s, rs[0]);
    ReadCycleStores(s, rs[0]);
    if |rs| == 1 {
      assert ReadRound(s, rs) == t1;
    } else {
      ReadRoundStores(t1, rs[1..]);
      var t := ReadRound(t1, rs[1..]);
      assert ReadRound(s, rs) == t;
      forall k | k0 <= k < 9
        ensures Slot(t, k) == rs[k - k0].value % 0x100
      {
        if k > k0 {
          assert rs[1..][k - (k0 + 1)] == rs[k - k0];
        }
      }
    }
  }

  /** One read stage and its callback store the answer in the stage's slot and move to the next read stage. */
  lemma ReadCycleStores(s: State, r: I2cResult)
    requires Valid(s) && IsReadStage(s.stage)
    ensures var t := ReadCycle(s, r);
      var k0 := ReadIndex(s.stage);
      && Valid(t) && t.stage == s.stage + 2 && t.pidx == PixelIndex(k0)
      && (k0 < 8 ==> IsReadStage(t.stage) && ReadIndex(t.stage) == k0 + 1)
      && (k0 == 8 ==> t.stage == LOOP_CLEAR_PREV_SCREEN)
      && Slot(t, k0) == r.value % 0x100
      && (forall k :: 0 <= k < 9 && k != k0 ==> Slot(t, k) == Slot(s, k))
  {
    ReadStageReads(s);
    CallbackStores(Step(s).state, r.status, r.value);
  }

  /** A full round from LOOP_READ_AMB stores the ambient reading and the eight pixel readings. */
  lemma FullRoundStoresAll(s: State, rs: seq<I2cResult>)
    requires Valid(s) && s.stage == LOOP_READ_AMB && |rs| == 9
    ensures var t := ReadRound(s, rs);
      && t.stage == LOOP_CLEAR_PREV_SCREEN
      && t.amb == rs[0].value % 0x100
      && |t.p| == 8
      && forall i :: 0 <= i < 8 ==> t.p[i] == rs[i + 1].value % 0x100
  {
    ReadRoundStores(s, rs);
    var t := ReadRound(s, rs);
    assert Slot(t, 0) == t.amb;
    forall i | 0 <= i < 8
      ensures t.p[i] == rs[i + 1].value % 0x100
    {
      assert Slot(t, i + 1) == t.p[i];
    }
  }

  // ---------------------------------------------------------------------
  // The program's globals, updated in place

  class Tpa81 {
    var stage: nat
    var ticks: uint32
    var nextAction: uint32
    var status: uint16
    var value: uint16
    var amb: byte
    /** The eight pixel temperatures. */
    const p: array<byte>
    var pidx: byte
    /** The hook calls made so far, oldest first. */
    var issued: seq<Event>

    function Snapshot(): State
      reads this, p
    {
      State(stage, ticks, nextAction, status, value, amb, p[..], pidx)
    }

    /** The globals as their declarations initialise them. */
    constructor ()
      ensures Snapshot() == Zero && issued == [] && p.Length == 8
    {
      stage, ticks, nextAction := INIT_1, 0, 0;
      status, value, amb := 0, 0, 0;
      p := new byte[8](_ => 0);
      pidx := PIDX_NONE;
      issued := [];
    }

    method PrgInit()
      modifies this
      ensures Snapshot() == Init(old(Snapshot())) && issued == old(issued)
    {
      ticks := 0;
      stage := INIT_1;
    }

    method I2cCallback(st: uint16, val: uint16)
      requires Valid(Snapshot()) && IsWaitStage(stage)
      modifies this, p
      ensures Snapshot() == OnI2c(old(Snapshot()), st, val) && issued == old(issued)
    {
      status := st;
      value := val;
      if pidx == PIDX_AMBIENT {
        amb := value % 0x100;
      } else if pidx != PIDX_NONE {
        p[pidx] := value % 0x100;
      }
      stage := stage + 1;
    }

    /** PrgTic: every case of the switch returns, so one tick runs one case. */
    method PrgTic() returns (rc: int)
      requires Valid(Snapshot())
      modifies this
      ensures var o := Step(old(Snapshot()));
        Snapshot() == o.state && rc == o.rc && issued == old(issued) + o.events
    {
      rc := RC_CONTINUE;
      ticks := Wrap32(ticks + 1);
      if stage == INIT_1 {
        issued := issued + [I2cRead(ADDRESS, 0x00, READ_FLAGS)];
        stage := stage + 1;
      } else if IsReadStage(stage) {  // LOOP_READ_AMB, LOOP_READ_P1 .. LOOP_READ_P8
        StartRead();
      } else if stage == LOOP_CLEAR_PREV_SCREEN {
        issued := issued + [DisplayClear];
        nextAction := Wrap32(ticks + CLEAR_DELAY);
        stage := stage + 1;
      } else if stage == LOOP_DISP_RESULT {
        if ticks >= nextAction {
          issued := issued + [DisplayMsg(ThermopileReadings(amb, p[..]))];
          nextAction := Wrap32(ticks + SHOW_DELAY);
          stage := stage + 1;
        }
      } else if stage == LOOP_WAIT_NEXT_ACTION {
        if ticks >= nextAction {
          stage := LOOP_READ_AMB;
        }
      }
      // WAIT_1 and the LOOP_READ_*_WAIT stages: waiting for the callback
    }

    /** A read stage: start the read of its register, point pidx at its slot, and wait for the callback. */
    method StartRead()
      requires Valid(Snapshot()) && IsReadStage(stage)
      modifies this
      ensures var k := ReadIndex(old(stage));
        && Snapshot() == old(Snapshot()).(pidx := PixelIndex(k), stage := old(stage) + 1)
        && issued == old(issued) + [I2cRead(ADDRESS, Register(k), READ_FLAGS)]
    {
      if stage == LOOP_READ_AMB {
        issued := issued + [I2cRead(ADDRESS, 0x01, READ_FLAGS)];
        pidx := PIDX_AMBIENT;
        stage := stage + 1;
      } else if stage == 4 {  // LOOP_READ_P1
        issued := issued + [I2cRead(ADDRESS, 0x02, READ_FLAGS)];
        pidx := 0;
        stage := stage + 1;
      } else if stage == 6 {  // LOOP_READ_P2
        issued := issued + [I2cRead(ADDRESS, 0x03, READ_FLAGS)];
        pidx := 1;
        stage := stage + 1;
      } else if stage == 8 {  // LOOP_READ_P3
        issued := issued + [I2cRead(ADDRESS, 0x04, READ_FLAGS)];
        pidx := 2;
        stage := stage + 1;
      } else if stage == 10 {  // LOOP_READ_P4
        issued := issued + [I2cRead(ADDRESS, 0x05, READ_FLAGS)];
        pidx := 3;
        stage := stage + 1;
      } else if stage == 12 {  // LOOP_READ_P5
        issued := issued + [I2cRead(ADDRESS, 0x06, READ_FLAGS)];
        pidx := 4;
        stage := stage + 1;
      } else if stage == 14 {  // LOOP_READ_P6
        issued := issued + [I2cRead(ADDRESS, 0x07, READ_FLAGS)];
        pidx := 5;
        stage := stage + 1;
      } else if stage == 16 {  // LOOP_READ_P7
        issued := issued + [I2cRead(ADDRESS, 0x08, READ_FLAGS)];
        pidx := 6;
        stage := stage + 1;
      } else if stage == 18 {  // LOOP_READ_P8
        issued := issued + [I2cRead(ADDRESS, 0x09, READ_FLAGS)];
        pidx := 7;
        stage := stage + 1;
      }
    }
  }
}

/**
 * The motor side of the two-controller "stop and go" over Bluetooth.
 *
 * The program resets counter C1, listens for the other controller, accepts
 * its incoming connection, starts receiving, and from then on serves the
 * requests in its receive callback: each request {motor, duty} sets motor
 * M1's PWM channels and is answered at once with {motor, counter}. The
 * tick only watches the statuses: a failed reply send (the other side
 * disconnected) stops the motor and resets the counter for the next session.
 *
 * As for the button side, `Step` is one PrgTic call on a value snapshot of
 * the statics, `EvalCase` and `Run` make the switch's fall-through explicit,
 * and the class `MotorPart` performs the same switch imperatively.
 */
module StopGoBtMotorPart {
  import opened Robo

  const MOTOR_NUMBER: byte := 1
  /** Index of motor M1 in the motor, counter and counter-reset arrays. */
  const MOTOR_IDX: nat := 0
  const BT_CHANNEL: int := 1
  /** The index of the other controller in the table of Bluetooth addresses. */
  const PEER: int := 0
  /** Dwell of every PAUSE stage, in ticks. */
  const DWELL: nat := 3000

  datatype Stage = StartListen | Pause1 | WaitConnect | Pause2 | Pause3 | Receive | Pause4 | Exit

  /** The case labels of PrgTic's switch, in textual order. */
  datatype Case = CStartListen | CPause1 | CWaitConnect | CPause2 | CPause3 | CReceive | CPause4 | CExit | CDefault

  function CaseOf(st: Stage): Case
  {
    match st
    case StartListen => CStartListen
    case Pause1 => CPause1
    case WaitConnect => CWaitConnect
    case Pause2 => CPause2
    case Pause3 => CPause3
    case Receive => CReceive
    case Pause4 => CPause4
    case Exit => CExit
  }

  function Position(c: Case): nat
  {
    match c
    case CStartListen => 0
    case CPause1 => 1
    case CWaitConnect => 2
    case CPause2 => 3
    case CPause3 => 4
    case CReceive => 5
    case CPause4 => 6
    case CExit => 7
    case CDefault => 8
  }

  /** The case label that follows `c` in the text of the switch. */
  function NextCase(c: Case): (n: Case)
    requires c != CDefault
    ensures Position(n) == Position(c) + 1
  {
    match c
    case CStartListen => CPause1
    case CPause1 => CWaitConnect
    case CWaitConnect => CPause2
    case CPause2 => CPause3
    case CPause3 => CReceive
    case CReceive => CPause4
    case CPause4 => CExit
    case CExit => CDefault
  }

  /**
   * The program's statics together with the transfer-area cells it writes:
   * the PWM duties of the outputs, the "counter has been reset" flag of C1
   * (cleared by the program, set by the firmware) and C1's reset command id.
   */
  datatype State = State(
    stage: Stage,
    timer: nat,
    command: BtCmd,
    commandStatus: int8,
    receiveCommandStatus: int8,
    duty: seq<int16>,
    cntResetted: bool,
    cntResetCmdId: nat)

  /** A state whose output array has one duty per PWM channel. */
  predicate WellFormed(s: State)
  {
    |s.duty| == N_PWM_CHAN
  }

  /** Every PWM channel holds a duty the firmware accepts. */
  predicate DutiesInRange(s: State)
  {
    forall i :: 0 <= i < |s.duty| ==> DUTY_MIN <= s.duty[i] <= DUTY_MAX
  }

  /**
   * What one tick reads: the answer of the status display helper (true once
   * it has shown the status) and whether the display is still being refreshed.
   */
  datatype TickIn = TickIn(shown: bool, refreshing: bool)

  /** The request to reset counter C1: clear its flag and bump its command id. */
  function ResetCounter(s: State): (t: State)
    ensures !t.cntResetted && t.cntResetCmdId == s.cntResetCmdId + 1
    ensures t.stage == s.stage && t.timer == s.timer && t.duty == s.duty && t.commandStatus == s.commandStatus
  {
    s.(cntResetted := false, cntResetCmdId := s.cntResetCmdId + 1)
  }

  /** Evaluates the statements under case label `c`, up to a break or to the next label. */
  function EvalCase(c: Case, s: State, inp: TickIn): (r: CaseResult<State>)
    requires WellFormed(s)
    ensures WellFormed(r.state)
    ensures DutiesInRange(s) ==> DutiesInRange(r.state)
    ensures r.FallThrough? ==> c in {CPause1, CPause2, CPause3, CPause4}
  {
    match c
    case CStartListen =>
      if s.cntResetted && s.commandStatus >= 0 && inp.shown then
        if s.commandStatus != BT_SUCCESS then Break(s.(stage := Pause4, timer := 0), RC_CONTINUE, [])
        else Break(s.(stage := Pause1, commandStatus := STATUS_PENDING, timer := 0), RC_CONTINUE, [])
      else Break(s, RC_CONTINUE, [])
    case CPause1 =>
      if s.timer + 1 >= DWELL then FallThrough(s.(timer := s.timer + 1, stage := WaitConnect), [])
      else Break(s.(timer := s.timer + 1), RC_CONTINUE, [])
    case CWaitConnect =>
      if s.commandStatus >= 0 && inp.shown then
        if s.commandStatus == BT_CON_INDICATION then
          Break(s.(stage := Pause2, command := CmdStartReceive, receiveCommandStatus := STATUS_PENDING,
                   commandStatus := STATUS_PENDING, timer := 0),
                RC_CONTINUE, [BtStartReceive(BT_CHANNEL)])
        else Break(s.(commandStatus := STATUS_PENDING, timer := 0), RC_CONTINUE, [])
      else Break(s, RC_CONTINUE, [])
    case CPause2 =>
      if s.timer + 1 >= DWELL then FallThrough(s.(stage := Pause3, timer := 0), [])
      else Break(s.(timer := s.timer + 1), RC_CONTINUE, [])
    case CPause3 =>
      if s.receiveCommandStatus >= 0 then
        if !inp.shown then Break(s, RC_CONTINUE, [])
        else if s.receiveCommandStatus == BT_SUCCESS then
          Break(s.(receiveCommandStatus := STATUS_PENDING, timer := 0), RC_CONTINUE, [])
        else Break(s.(stage := Pause4, timer := 0), RC_CONTINUE, [])
      else if s.timer + 1 >= DWELL then
        // falls into RECEIVE whether or not the display allowed the stage change
        if !inp.refreshing then FallThrough(s.(timer := s.timer + 1, stage := Receive), [DisplayClear])
        else FallThrough(s.(timer := s.timer + 1), [])
      else Break(s.(timer := s.timer + 1), RC_CONTINUE, [])
    case CReceive =>
      if s.commandStatus >= 0 then
        if s.commandStatus != BT_SUCCESS then
          var stopped := s.(duty := s.duty[MOTOR_IDX * 2 := 0]);
          Break(ResetCounter(stopped).(commandStatus := STATUS_PENDING, command := CmdNoCmd), RC_CONTINUE, [])
        else Break(s.(command := CmdNoCmd), RC_CONTINUE, [])
      else Break(s, RC_CONTINUE, [])
    case CPause4 =>
      if s.timer + 1 >= DWELL then FallThrough(s.(timer := s.timer + 1, stage := Exit), [])
      else Break(s.(timer := s.timer + 1), RC_CONTINUE, [])
    case CExit =>
      Break(s, if inp.refreshing then RC_CONTINUE else RC_STOP, [])
    case CDefault =>
      Break(s, RC_CONTINUE, [])
  }

  /** Evaluates the switch from label `c` on, following fall-through until a break. */
  function Run(c: Case, s: State, inp: TickIn): (o: Outcome<State>)
    requires WellFormed(s)
    ensures WellFormed(o.state)
    ensures DutiesInRange(s) ==> DutiesInRange(o.state)
    decreases 9 - Position(c)
  {
    match EvalCase(c, s, inp)
    case Break(s', rc, evs) => Outcome(s', rc, evs)
    case FallThrough(s', evs) =>
      var o := Run(NextCase(c), s', inp);
      Outcome(o.state, o.rc, evs + o.events)
  }

  /** One unfolding of `Run`: a break ends the tick, a fall-through continues at the next label. */
  lemma RunUnfolds(c: Case, s: State, inp: TickIn)
    requires WellFormed(s)
    ensures var r := EvalCase(c, s, inp);
      && (r.Break? ==> Run(c, s, inp) == Outcome(r.state, r.rc, r.events))
      && (r.FallThrough? ==> c != CDefault && Run(c, s, inp) == Prefixed(r.events, Run(NextCase(c), r.state, inp)))
  {
  }

  /** One PrgTic call. */
  function Step(s: State, inp: TickIn): (o: Outcome<State>)
    requires WellFormed(s)
    ensures WellFormed(o.state) && (DutiesInRange(s) ==> DutiesInRange(o.state))
    ensures o.rc == RC_STOP || o.rc == RC_CONTINUE
  {
    Run(CaseOf(s.stage), s, inp)
  }

  /**
   * A tick falls through at most once: PAUSE_1 falls into WAIT_CONNECT,
   * PAUSE_2 into PAUSE_3 with the timer at 0, PAUSE_3 into RECEIVE and
   * PAUSE_4 into EXIT, and each of those breaks.
   */
  lemma AtMostOneFallThrough(s: State, inp: TickIn)
    requires WellFormed(s)
    ensures var r := EvalCase(CaseOf(s.stage), s, inp);
      && (r.Break? ==> Step(s, inp) == Outcome(r.state, r.rc, r.events))
      && (r.FallThrough? ==>
            var r2 := EvalCase(NextCase(CaseOf(s.stage)), r.state, inp);
            r2.Break? && Step(s, inp) == Outcome(r2.state, r2.rc, r.events + r2.events))
  {
    var c := CaseOf(s.stage);
    var r := EvalCase(c, s, inp);
    RunUnfolds(c, s, inp);
    if r.FallThrough? {
      RunUnfolds(NextCase(c), r.state, inp);
    }
  }

  /** The statics and outputs before PrgInit runs: zero-initialised. */
  const Zero: State := State(StartListen, 0, CmdNoCmd, 0, 0, seq(N_PWM_CHAN, _ => 0), false, 0)

  /** PrgInit: request a reset of counter C1 and start listening for the other controller. */
  function Init(s: State): (t: State)
    ensures WellFormed(s) ==> WellFormed(t)
    ensures t.stage == StartListen && t.command == CmdStartListen && t.commandStatus == STATUS_PENDING
    ensures !t.cntResetted && t.cntResetCmdId == s.cntResetCmdId + 1 && t.duty == s.duty
  {
    ResetCounter(s).(stage := StartListen, command := CmdStartListen, commandStatus := STATUS_PENDING)
  }

  const InitEvents: seq<Event> := [BtStartListen(BT_CHANNEL, PEER)]

  /** BtCallback: the status of any command except BtStartReceive. */
  function OnStatus(s: State, status: int8): (t: State)
    ensures t.commandStatus == status
    ensures t.stage == s.stage && t.timer == s.timer && t.command == s.command && t.duty == s.duty
  {
    s.(commandStatus := status)
  }

  /** The effect of a callback: the new statics and the hook calls it made. */
  datatype Reaction = Reaction(state: State, events: seq<Event>)

  /** The three bytes of a reply: the counter number, then the counter's value as an INT16. */
  function Reply(motor: byte, counter: uint16): (m: seq<byte>)
    ensures |m| == 3 && m[0] == motor
    ensures DecodeInt16(m[1..3]) == ToInt16(counter)
  {
    DecodeEncodeInt16(ToInt16(counter));
    [motor] + EncodeInt16(ToInt16(counter))
  }

  /**
   * BtReceiveCallback: a start-receive status, or a request {motor, INT16
   * duty}. `counters` is the firmware's counter inputs at that moment.
   */
  function OnReceive(s: State, status: int8, msg: seq<byte>, counters: seq<uint16>): (r: Reaction)
    requires WellFormed(s) && (status == BT_MSG_INDICATION ==> |msg| >= 3) && |counters| == N_CNT
    ensures WellFormed(r.state) && (DutiesInRange(s) ==> DutiesInRange(r.state))
    ensures r.state.stage == s.stage && r.state.timer == s.timer
    ensures |r.events| == (if status == BT_MSG_INDICATION && 1 <= msg[0] <= N_MOTOR then 1 else 0)
  {
    if status != BT_MSG_INDICATION then Reaction(s.(receiveCommandStatus := status), [])
    else
      var motor := msg[0];
      if !(1 <= motor <= N_MOTOR) then Reaction(s, [])
      else
        var chan := (motor as int - 1) * 2;
        var duty := DecodeInt16(msg[1..3]);
        var out := if DUTY_MIN <= duty <= DUTY_MAX then s.duty[chan := duty][chan + 1 := 0] else s.duty;
        Reaction(s.(duty := out, commandStatus := STATUS_PENDING),
                 [BtSend(BT_CHANNEL, Reply(motor, counters[motor - 1]))])
  }

  /** The firmware completes the requested reset of counter C1. */
  function OnCounterReset(s: State): (t: State)
    ensures t.cntResetted && t.cntResetCmdId == s.cntResetCmdId
    ensures t.stage == s.stage && t.timer == s.timer && t.duty == s.duty
  {
    s.(cntResetted := true)
  }

  /** Runs consecutive ticks with no callback in between; the final state. */
  function RunTicks(s: State, ins: seq<TickIn>): (t: State)
    requires WellFormed(s)
    ensures WellFormed(t)
    decreases |ins|
  {
    if ins == [] then s else RunTicks(Step(s, ins[0]).state, ins[1..])
  }

  /** The return codes of consecutive ticks with no callback in between. */
  function Returns(s: State, ins: seq<TickIn>): (rcs: seq<int>)
    requires WellFormed(s)
    ensures |rcs| == |ins|
    decreases |ins|
  {
    if ins == [] then [] else [Step(s, ins[0]).rc] + Returns(Step(s, ins[0]).state, ins[1..])
  }

  /** Rank of a stage in the declared order. */
  function Rank(st: Stage): nat
  {
    match st
    case StartListen => 0
    case Pause1 => 1
    case WaitConnect => 2
    case Pause2 => 3
    case Pause3 => 4
    case Receive => 5
    case Pause4 => 6
    case Exit => 7
  }

  // ---------------------------------------------------------------------
  // Properties of one tick and of the callbacks

  lemma InitListens(s: State)
    ensures var t := Init(s);
      && t.stage == StartListen && t.command == CmdStartListen && t.commandStatus == STATUS_PENDING
      && !t.cntResetted && t.cntResetCmdId == s.cntResetCmdId + 1
      && t.duty == s.duty && t.timer == s.timer
    ensures AsyncCount(InitEvents) == 1 && InitEvents[0] == BtStartListen(BT_CHANNEL, PEER)
  {
  }

  /** START_LISTEN changes nothing until the counter is reset and the listen status is reported and shown. */
  lemma StartListenWaits(s: State, inp: TickIn)
    requires WellFormed(s) && s.stage == StartListen
    requires !s.cntResetted || s.commandStatus < 0 || !inp.shown
    ensures Step(s, inp) == Outcome(s, RC_CONTINUE, [])
  {
  }

  /** START_LISTEN with the counter reset and the status shown: failure to PAUSE_4, success to PAUSE_1. */
  lemma StartListenReported(s: State, inp: TickIn)
    requires WellFormed(s) && s.stage == StartListen
    requires s.cntResetted && s.commandStatus >= 0 && inp.shown
    ensures var o := Step(s, inp);
      && o.events == [] && o.rc == RC_CONTINUE
      && (s.commandStatus != BT_SUCCESS ==> o.state == s.(stage := Pause4, timer := 0))
      && (s.commandStatus == BT_SUCCESS ==> o.state == s.(stage := Pause1, commandStatus := STATUS_PENDING, timer := 0))
  {
  }

  /**
   * WAIT_CONNECT moves to PAUSE_2 and starts receiving only on a connection
   * indication; any other shown status keeps it waiting. Both reset the status.
   */
  lemma WaitConnectReported(s: State, inp: TickIn)
    requires WellFormed(s) && s.stage == WaitConnect
    requires s.commandStatus >= 0 && inp.shown
    ensures var o := Step(s, inp);
      && o.rc == RC_CONTINUE && o.state.commandStatus == STATUS_PENDING && o.state.timer == 0
      && (o.state.stage == Pause2 <==> s.commandStatus == BT_CON_INDICATION)
      && (s.commandStatus == BT_CON_INDICATION ==>
            && o.events == [BtStartReceive(BT_CHANNEL)]
            && o.state.command == CmdStartReceive && o.state.receiveCommandStatus == STATUS_PENDING)
      && (s.commandStatus != BT_CON_INDICATION ==>
            o.events == [] && o.state == s.(commandStatus := STATUS_PENDING, timer := 0))
  {
  }

  /** PAUSE_1, PAUSE_2 and PAUSE_4 count one tick and leave only once the count reaches the dwell. */
  lemma PausesDwell(s: State, inp: TickIn)
    requires WellFormed(s) && s.stage in {Pause1, Pause2, Pause4}
    ensures var o := Step(s, inp);
      && (s.timer + 1 < DWELL ==> o == Outcome(s.(timer := s.timer + 1), RC_CONTINUE, []))
      && (s.timer + 1 >= DWELL ==> o.state.stage != s.stage)
  {
  }

  /** PAUSE_3 with a shown start-receive status: success restarts the dwell, failure goes to PAUSE_4. */
  lemma Pause3Status(s: State, inp: TickIn)
    requires WellFormed(s) && s.stage == Pause3 && s.receiveCommandStatus >= 0 && inp.shown
    ensures var o := Step(s, inp);
      && o.events == [] && o.rc == RC_CONTINUE
      && (s.receiveCommandStatus == BT_SUCCESS ==> o.state == s.(receiveCommandStatus := STATUS_PENDING, timer := 0))
      && (s.receiveCommandStatus != BT_SUCCESS ==> o.state == s.(stage := Pause4, timer := 0))
  {
  }

  /**
   * PAUSE_3 without a status counts; at the dwell with the display idle it
   * clears the display and enters RECEIVE, evaluating RECEIVE in the same tick.
   */
  lemma Pause3Dwell(s: State, inp: TickIn)
    requires WellFormed(s) && s.stage == Pause3 && s.receiveCommandStatus < 0
    ensures var o := Step(s, inp);
      && o.rc == RC_CONTINUE
      && (s.timer + 1 < DWELL ==> o == Outcome(s.(timer := s.timer + 1), RC_CONTINUE, []))
      && (s.timer + 1 >= DWELL && !inp.refreshing ==>
            o.state.stage == Receive && o.events == [DisplayClear]
            && o == Prefixed([DisplayClear], Run(CReceive, s.(timer := s.timer + 1, stage := Receive), inp)))
  {
  }

  /**
   * At the end of the PAUSE_3 dwell with the display still refreshing, the
   * stage stays PAUSE_3 but the switch still falls into the RECEIVE case.
   */
  lemma Pause3FallsIntoReceiveWhileRefreshing(s: State, inp: TickIn)
    requires WellFormed(s) && s.stage == Pause3 && s.receiveCommandStatus < 0
    requires s.timer + 1 >= DWELL && inp.refreshing
    ensures Step(s, inp) == Run(CReceive, s.(timer := s.timer + 1), inp)
    ensures Step(s, inp).state.stage == Pause3
  {
  }

  /**
   * RECEIVE: a failed reply send stops the motor, requests a counter reset and
   * resets the status, staying in RECEIVE; a success only drops the command;
   * a pending status changes nothing. RECEIVE never stops the program.
   */
  lemma ReceiveStatus(s: State, inp: TickIn)
    requires WellFormed(s) && s.stage == Receive
    ensures var o := Step(s, inp);
      && o.events == [] && o.rc == RC_CONTINUE && o.state.stage == Receive
      && (s.commandStatus < 0 ==> o.state == s)
      && (s.commandStatus == BT_SUCCESS ==> o.state == s.(command := CmdNoCmd))
      && (s.commandStatus >= 0 && s.commandStatus != BT_SUCCESS ==>
            && o.state.duty == s.duty[MOTOR_IDX * 2 := 0]
            && !o.state.cntResetted && o.state.cntResetCmdId == s.cntResetCmdId + 1
            && o.state.commandStatus == STATUS_PENDING && o.state.command == CmdNoCmd
            && o.state.timer == s.timer && o.state.receiveCommandStatus == s.receiveCommandStatus)
  {
  }

  /** PrgTic returns STOP exactly when it ends in EXIT with the display idle, and CONTINUE otherwise. */
  lemma StopOnlyInExit(s: State, inp: TickIn)
    requires WellFormed(s)
    ensures var o := Step(s, inp);
      && (o.rc == RC_STOP <==> o.state.stage == Exit && !inp.refreshing)
      && (o.rc == RC_STOP || o.rc == RC_CONTINUE)
  {
    AtMostOneFallThrough(s, inp);
    match s.stage
    case Pause3 =>
    case Receive =>
    case Pause4 =>
    case _ =>
  }

  /** Stages only move forward in the declared order. */
  lemma StagesMoveForward(s: State, inp: TickIn)
    requires WellFormed(s)
    ensures Rank(Step(s, inp).state.stage) >= Rank(s.stage)
  {
    AtMostOneFallThrough(s, inp);
    match s.stage
    case Pause3 =>
    case Receive =>
    case Pause4 =>
    case _ =>
  }

  /**
   * Every tick issues at most one asynchronous command; only WAIT_CONNECT
   * issues one, possibly in the tick that falls into it from PAUSE_1.
   */
  lemma AtMostOneCommandPerTick(s: State, inp: TickIn)
    requires WellFormed(s)
    ensures AsyncCount(Step(s, inp).events) <= 1
    ensures AsyncCount(Step(s, inp).events) == 1 ==> s.stage in {Pause1, WaitConnect}
  {
    AtMostOneFallThrough(s, inp);
    var c := CaseOf(s.stage);
    var r := EvalCase(c, s, inp);
    CaseCommands(c, s, inp);
    if r.FallThrough? {
      var r2 := EvalCase(NextCase(c), r.state, inp);
      CaseCommands(NextCase(c), r.state, inp);
      AsyncCountAppend(r.events, r2.events);
    }
  }

  /** Only WAIT_CONNECT issues an asynchronous command, one at most; the labels that fall through issue none. */
  lemma CaseCommands(c: Case, s: State, inp: TickIn)
    requires WellFormed(s)
    ensures var r := EvalCase(c, s, inp);
      && AsyncCount(r.events) <= 1
      && (AsyncCount(r.events) == 1 ==> c == CWaitConnect)
      && (r.FallThrough? ==> AsyncCount(r.events) == 0)
  {
    AsyncCountSmall();
  }

  /** The tick keeps every PWM duty within the firmware's range. */
  lemma StepKeepsDutiesInRange(s: State, inp: TickIn)
    requires WellFormed(s) && DutiesInRange(s)
    ensures DutiesInRange(Step(s, inp).state)
  {
  }

  /** BtCallback only records the status. */
  lemma StatusCallbackRecords(s: State, status: int8)
    ensures OnStatus(s, status).commandStatus == status
    ensures OnStatus(s, status).(commandStatus := s.commandStatus) == s
  {
  }

  /** A start-receive status is only stored; nothing is written and nothing is sent. */
  lemma ReceiveCallbackStoresStatus(s: State, status: int8, msg: seq<byte>, counters: seq<uint16>)
    requires WellFormed(s) && (status == BT_MSG_INDICATION ==> |msg| >= 3) && |counters| == N_CNT
    requires status != BT_MSG_INDICATION
    ensures OnReceive(s, status, msg, counters) == Reaction(s.(receiveCommandStatus := status), [])
  {
  }

  /** A request for a motor outside 1..N_MOTOR writes no output and sends nothing. */
  lemma ReceiveIgnoresUnknownMotor(s: State, msg: seq<byte>, counters: seq<uint16>)
    requires WellFormed(s) && |msg| >= 3 && |counters| == N_CNT
    requires !(1 <= msg[0] <= N_MOTOR)
    ensures OnReceive(s, BT_MSG_INDICATION, msg, counters) == Reaction(s, [])
  {
  }

  /**
   * A request for motor m in 1..N_MOTOR: the duty d it carries is applied
   * to channel (m-1)*2, with the sibling channel set to 0, exactly when
   * DUTY_MIN <= d <= DUTY_MAX, and no other channel changes; whatever the
   * duty, a single reply {m, counter m} is sent with the status made pending.
   */
  lemma ReceiveAppliesDutyAndReplies(s: State, msg: seq<byte>, counters: seq<uint16>)
    requires WellFormed(s) && |msg| >= 3 && |counters| == N_CNT
    requires 1 <= msg[0] <= N_MOTOR
    ensures var r := OnReceive(s, BT_MSG_INDICATION, msg, counters);
      var chan := (msg[0] as int - 1) * 2;
      var d := DecodeInt16(msg[1..3]);
      && r.events == [BtSend(BT_CHANNEL, Reply(msg[0], counters[msg[0] - 1]))]
      && AsyncCount(r.events) == 1
      && r.state.commandStatus == STATUS_PENDING
      && r.state.(duty := s.duty, commandStatus := s.commandStatus) == s
      && |r.state.duty| == |s.duty|
      && (forall i :: 0 <= i < |s.duty| && i != chan && i != chan + 1 ==> r.state.duty[i] == s.duty[i])
      && (DUTY_MIN <= d <= DUTY_MAX ==> r.state.duty[chan] == d && r.state.duty[chan + 1] == 0)
      && (!(DUTY_MIN <= d <= DUTY_MAX) ==> r.state.duty == s.duty)
  {
    AsyncCountSmall();
  }

  /** The receive callback keeps every PWM duty within the firmware's range. */
  lemma ReceiveKeepsDutiesInRange(s: State, status: int8, msg: seq<byte>, counters: seq<uint16>)
    requires WellFormed(s) && DutiesInRange(s) && (status == BT_MSG_INDICATION ==> |msg| >= 3) && |counters| == N_CNT
    ensures WellFormed(OnReceive(s, status, msg, counters).state)
    ensures DutiesInRange(OnReceive(s, status, msg, counters).state)
  {
  }

  // ---------------------------------------------------------------------
  // Properties of runs of ticks

  /** Inside the final dwell, every tick continues and counts: PAUSE_4 with timer + n below the dwell. */
  lemma {:induction false} Pause4Counts(s: State, ins: seq<TickIn>)
    requires WellFormed(s) && s.stage == Pause4 && s.timer + |ins| < DWELL
    ensures RunTicks(s, ins) == s.(timer := s.timer + |ins|)
    ensures forall k :: 0 <= k < |ins| ==> Returns(s, ins)[k] == RC_CONTINUE
    decreases |ins|
  {
    if ins != [] {
      var s1 := Step(s, ins[0]).state;
      assert s1 == s.(timer := s.timer + 1);
      Pause4Counts(s1, ins[1..]);
    }
  }

  /**
   * After a failure the program sits DWELL - 1 ticks in PAUSE_4, continuing,
   * and the next tick enters EXIT, stopping then if the display is idle.
   */
  lemma FailureDwellThenStop(s: State, ins: seq<TickIn>)
    requires WellFormed(s) && s.stage == Pause4 && s.timer == 0 && |ins| == DWELL
    ensures forall k :: 0 <= k < DWELL - 1 ==> Returns(s, ins)[k] == RC_CONTINUE
    ensures Returns(s, ins)[DWELL - 1] == (if ins[DWELL - 1].refreshing then RC_CONTINUE else RC_STOP)
    ensures RunTicks(s, ins).stage == Exit
  {
    var n := DWELL - 1;
    Pause4Counts(s, ins[..n]);
    var s1 := RunTicks(s, ins[..n]);
    RunTicksSplit(s, ins[..n], ins[n..]);
    ReturnsSplit(s, ins[..n], ins[n..]);
    assert ins[..n] + ins[n..] == ins;
    assert ins[n..] == [ins[n]];
    assert Step(s1, ins[n]).state.stage == Exit;
  }

  /** Once in RECEIVE, the program stays in RECEIVE and never stops, whatever the ticks. */
  lemma {:induction false} ReceiveServesForever(s: State, ins: seq<TickIn>)
    requires WellFormed(s) && s.stage == Receive
    ensures RunTicks(s, ins).stage == Receive
    ensures forall k :: 0 <= k < |ins| ==> Returns(s, ins)[k] == RC_CONTINUE
    decreases |ins|
  {
    if ins != [] {
      ReceiveStatus(s, ins[0]);
      ReceiveServesForever(Step(s, ins[0]).state, ins[1..]);
    }
  }

  lemma {:induction false} RunTicksSplit(s: State, a: seq<TickIn>, b: seq<TickIn>)
    requires WellFormed(s)
    ensures RunTicks(s, a + b) == RunTicks(RunTicks(s, a), b)
    decreases |a|
  {
    if a != [] {
      assert (a + b)[1..] == a[1..] + b;
      RunTicksSplit(Step(s, a[0]).state, a[1..], b);
    } else {
      assert a + b == b;
    }
  }

  lemma {:induction false} ReturnsSplit(s: State, a: seq<TickIn>, b: seq<TickIn>)
    requires WellFormed(s)
    ensures Returns(s, a + b) == Returns(s, a) + Returns(RunTicks(s, a), b)
    decreases |a|
  {
    if a != [] {
      assert (a + b)[1..] == a[1..] + b;
      ReturnsSplit(Step(s, a[0]).state, a[1..], b);
    } else {
      assert a + b == b;
    }
  }

  // ---------------------------------------------------------------------
  // The program's statics and transfer-area cells, updated in place

  class MotorPart {
    var stage: Stage
    var timer: nat
    var command: BtCmd
    var commandStatus: int8
    var receiveCommandStatus: int8
    /** output.duty: the PWM duty of each output channel. */
    const duty: array<int16>
    /** input.cnt_resetted[MOTOR_IDX]. */
    var cntResetted: bool
    /** output.cnt_reset_cmd_id[MOTOR_IDX]. */
    var cntResetCmdId: nat
    /** The hook calls made so far, oldest first. */
    var issued: seq<Event>

    function Snapshot(): State
      reads this, duty
    {
      State(stage, timer, command, commandStatus, receiveCommandStatus, duty[..], cntResetted, cntResetCmdId)
    }

    /** The statics and transfer area as the loader leaves them: zero-initialised. */
    constructor ()
      ensures Snapshot() == Zero && issued == [] && duty.Length == N_PWM_CHAN
    {
      stage, timer, command := StartListen, 0, CmdNoCmd;
      commandStatus, receiveCommandStatus := 0, 0;
      duty := new int16[N_PWM_CHAN](_ => 0);
      cntResetted, cntResetCmdId := false, 0;
      issued := [];
    }

    method PrgInit()
      modifies this
      ensures Snapshot() == Init(old(Snapshot()))
      ensures issued == old(issued) + InitEvents
    {
      cntResetted := false;
      cntResetCmdId := cntResetCmdId + 1;
      stage := StartListen;
      command := CmdStartListen;
      commandStatus := STATUS_PENDING;
      issued := issued + [BtStartListen(BT_CHANNEL, PEER)];
    }

    method BtCallback(status: int8)
      modifies this
      ensures Snapshot() == OnStatus(old(Snapshot()), status) && issued == old(issued)
    {
      commandStatus := status;
    }

    /** The firmware finishes resetting counter C1 and reports it in the transfer area. */
    method CounterResetDone()
      modifies this
      ensures Snapshot() == OnCounterReset(old(Snapshot())) && issued == old(issued)
    {
      cntResetted := true;
    }

    /** `counters` is input.counter at the time of the call. */
    method BtReceiveCallback(status: int8, msg: seq<byte>, counters: seq<uint16>)
      requires duty.Length == N_PWM_CHAN && (status == BT_MSG_INDICATION ==> |msg| >= 3) && |counters| == N_CNT
      modifies this, duty
      ensures var r := OnReceive(old(Snapshot()), status, msg, counters);
        Snapshot() == r.state && issued == old(issued) + r.events
    {
      if status == BT_MSG_INDICATION {
        var motor := msg[0];
        if motor >= 1 && motor <= N_MOTOR {
          var pwmChan := (motor as int - 1) * 2;
          var d := DecodeInt16(msg[1..3]);
          if d >= DUTY_MIN && d <= DUTY_MAX {
            duty[pwmChan] := d;
            duty[pwmChan + 1] := 0;
          }
          var counter := ToInt16(counters[motor - 1]);
          var reply := [motor] + EncodeInt16(counter);
          commandStatus := STATUS_PENDING;
          issued := issued + [BtSend(BT_CHANNEL, reply)];
        }
      } else {
        receiveCommandStatus := status;
      }
    }

    /**
     * PrgTic: the switch jumps to the label of the current stage and keeps
     * executing labels in textual order until a break (C fall-through).
     */
    method PrgTic(shown: bool, refreshing: bool) returns (rc: int)
      requires duty.Length == N_PWM_CHAN
      modifies this, duty
      ensures var o := Step(old(Snapshot()), TickIn(shown, refreshing));
        Snapshot() == o.state && rc == o.rc && issued == old(issued) + o.events
    {
      rc := RunFrom(CaseOf(stage), shown, refreshing);
    }

    /** The switch from case label `pc` on: this label's statements, then the next label's if it falls through. */
    method RunFrom(pc: Case, shown: bool, refreshing: bool) returns (rc: int)
      requires duty.Length == N_PWM_CHAN && WellFormed(Snapshot())
      modifies this, duty
      ensures var o := Run(pc, old(Snapshot()), TickIn(shown, refreshing));
        Snapshot() == o.state && rc == o.rc && issued == old(issued) + o.events
      decreases 9 - Position(pc)
    {
      ghost var inp := TickIn(shown, refreshing);
      ghost var r := EvalCase(pc, Snapshot(), inp);
      RunUnfolds(pc, Snapshot(), inp);
      var fallThrough;
      rc, fallThrough := ExecuteCase(pc, shown, refreshing);
      if fallThrough {
        rc := RunFrom(NextCase(pc), shown, refreshing);
      }
    }

    /** The statements under one case label, up to its break or to the next label. */
    method ExecuteCase(pc: Case, shown: bool, refreshing: bool) returns (rc: int, fallThrough: bool)
      requires duty.Length == N_PWM_CHAN
      modifies this, duty
      ensures var r := EvalCase(pc, old(Snapshot()), TickIn(shown, refreshing));
        && fallThrough == r.FallThrough?
        && Snapshot() == r.state
        && issued == old(issued) + r.events
        && (!fallThrough ==> rc == r.rc)
    {
      match pc
      case CStartListen =>
        rc, fallThrough := StartListenCase(pc, shown, refreshing);
      case CPause1 =>
        rc, fallThrough := Pause1Case(pc, shown, refreshing);
      case CWaitConnect =>
        rc, fallThrough := WaitConnectCase(pc, shown, refreshing);
      case CPause2 =>
        rc, fallThrough := Pause2Case(pc, shown, refreshing);
      case CPause3 =>
        rc, fallThrough := Pause3Case(pc, shown, refreshing);
      case CReceive =>
        rc, fallThrough := ReceiveCase(pc, shown, refreshing);
      case CPause4 =>
        rc, fallThrough := Pause4Case(pc, shown, refreshing);
      case CExit =>
        rc, fallThrough := if refreshing then RC_CONTINUE else RC_STOP, false;
      case CDefault =>
        rc, fallThrough := RC_CONTINUE, false;
    }

    /** START_LISTEN: once the counter is reset and the listen status shown, go on or give up. */
    method StartListenCase(pc: Case, shown: bool, refreshing: bool) returns (rc: int, fallThrough: bool)
      requires pc == CStartListen
      requires duty.Length == N_PWM_CHAN
      modifies this
      ensures var r := EvalCase(pc, old(Snapshot()), TickIn(shown, refreshing));
        && fallThrough == r.FallThrough?
        && Snapshot() == r.state
        && issued == old(issued) + r.events
        && (!fallThrough ==> rc == r.rc)
    {
      rc, fallThrough := RC_CONTINUE, false;
      if cntResetted && commandStatus >= 0 && shown {
        if commandStatus != BT_SUCCESS {
          stage := Pause4;
        } else {
          stage := Pause1;
          commandStatus := STATUS_PENDING;
        }
        timer := 0;
      }
    }

    /** PAUSE_1: count a tick, and after 3000 fall into WAIT_CONNECT. */
    method Pause1Case(pc: Case, shown: bool, refreshing: bool) returns (rc: int, fallThrough: bool)
      requires pc == CPause1
      requires duty.Length == N_PWM_CHAN
      modifies this
      ensures var r := EvalCase(pc, old(Snapshot()), TickIn(shown, refreshing));
        && fallThrough == r.FallThrough?
        && Snapshot() == r.state
        && issued == old(issued) + r.events
        && (!fallThrough ==> rc == r.rc)
    {
      rc, fallThrough := RC_CONTINUE, false;
      timer := timer + 1;
      if timer >= DWELL {
        stage := WaitConnect;
        fallThrough := true;
      }
    }

    /** PAUSE_2: count a tick, and after 3000 fall into PAUSE_3 with the timer restarted. */
    method Pause2Case(pc: Case, shown: bool, refreshing: bool) returns (rc: int, fallThrough: bool)
      requires pc == CPause2
      requires duty.Length == N_PWM_CHAN
      modifies this
      ensures var r := EvalCase(pc, old(Snapshot()), TickIn(shown, refreshing));
        && fallThrough == r.FallThrough?
        && Snapshot() == r.state
        && issued == old(issued) + r.events
        && (!fallThrough ==> rc == r.rc)
    {
      rc, fallThrough := RC_CONTINUE, false;
      timer := timer + 1;
      if timer >= DWELL {
        stage := Pause3;
        timer := 0;
        fallThrough := true;
      }
    }

    /** PAUSE_4: count a tick, and after 3000 fall into EXIT. */
    method Pause4Case(pc: Case, shown: bool, refreshing: bool) returns (rc: int, fallThrough: bool)
      requires pc == CPause4
      requires duty.Length == N_PWM_CHAN
      modifies this
      ensures var r := EvalCase(pc, old(Snapshot()), TickIn(shown, refreshing));
        && fallThrough == r.FallThrough?
        && Snapshot() == r.state
        && issued == old(issued) + r.events
        && (!fallThrough ==> rc == r.rc)
    {
      rc, fallThrough := RC_CONTINUE, false;
      timer := timer + 1;
      if timer >= DWELL {
        stage := Exit;
        fallThrough := true;
      }
    }

    /** WAIT_CONNECT: on a shown connect indication start receiving. */
    method WaitConnectCase(pc: Case, shown: bool, refreshing: bool) returns (rc: int, fallThrough: bool)
      requires pc == CWaitConnect
      requires duty.Length == N_PWM_CHAN
      modifies this
      ensures var r := EvalCase(pc, old(Snapshot()), TickIn(shown, refreshing));
        && fallThrough == r.FallThrough?
        && Snapshot() == r.state
        && issued == old(issued) + r.events
        && (!fallThrough ==> rc == r.rc)
    {
      rc, fallThrough := RC_CONTINUE, false;
      if commandStatus >= 0 && shown {
        if commandStatus == BT_CON_INDICATION {
          stage := Pause2;
          command := CmdStartReceive;
          receiveCommandStatus := STATUS_PENDING;
          issued := issued + [BtStartReceive(BT_CHANNEL)];
        }
        commandStatus := STATUS_PENDING;
        timer := 0;
      }
    }

    /** PAUSE_3: report the receive status, or after 3000 ticks clear the display and fall into RECEIVE. */
    method Pause3Case(pc: Case, shown: bool, refreshing: bool) returns (rc: int, fallThrough: bool)
      requires pc == CPause3
      requires duty.Length == N_PWM_CHAN
      modifies this
      ensures var r := EvalCase(pc, old(Snapshot()), TickIn(shown, refreshing));
        && fallThrough == r.FallThrough?
        && Snapshot() == r.state
        && issued == old(issued) + r.events
        && (!fallThrough ==> rc == r.rc)
    {
      rc, fallThrough := RC_CONTINUE, false;
      if receiveCommandStatus >= 0 {
        if shown {
          if receiveCommandStatus == BT_SUCCESS {
            receiveCommandStatus := STATUS_PENDING;
            timer := 0;
          } else {
            stage := Pause4;
            timer := 0;
          }
        }
      } else {
        timer := timer + 1;
        if timer >= DWELL {
          if !refreshing {
            issued := issued + [DisplayClear];
            stage := Receive;
          }
          fallThrough := true;
        }
      }
    }

    /** RECEIVE: on a failed send, stop the motor and request a counter reset. */
    method ReceiveCase(pc: Case, shown: bool, refreshing: bool) returns (rc: int, fallThrough: bool)
      requires pc == CReceive
      requires duty.Length == N_PWM_CHAN
      modifies this, duty
      ensures var r := EvalCase(pc, old(Snapshot()), TickIn(shown, refreshing));
        && fallThrough == r.FallThrough?
        && Snapshot() == r.state
        && issued == old(issued) + r.events
        && (!fallThrough ==> rc == r.rc)
    {
      rc, fallThrough := RC_CONTINUE, false;
      if commandStatus >= 0 {
        if commandStatus != BT_SUCCESS {
          duty[MOTOR_IDX * 2] := 0;
          cntResetted := false;
          cntResetCmdId := cntResetCmdId + 1;
          commandStatus := STATUS_PENDING;
        }
        command := CmdNoCmd;
      }
    }
  }
}

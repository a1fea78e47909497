/**
 * The button side of the two-controller "stop and go" over Bluetooth.
 *
 * The program connects to the other controller, starts receiving from the
 * channel, and then loops: sample button I8, send {motor 1, duty} to the
 * other controller, wait for the send status, wait for the reply that
 * carries the motor's pulse counter. It stops once the reported counter
 * reaches 1000, after a dwell that leaves the last display output visible.
 *
 * `Step` is the transition of one PrgTic call on a value snapshot of the
 * program's statics; the switch's fall-through is made explicit by
 * `EvalCase`, which either breaks (ends the tick) or falls through into the
 * textually next case label, and `Run`, which follows the fall-through.
 * The class `ButtonPart` holds the statics and performs the same switch
 * imperatively; its methods are proved to agree with the value functions.
 */
module StopGoBtButtonPart {
  import opened Robo

  const MOTOR_NUMBER: byte := 1
  const BUTTON_NUMBER: int := 8
  const BT_CHANNEL: int := 1
  /** The index of the other controller in the table of Bluetooth addresses. */
  const PEER: int := 1
  /** Dwell of every PAUSE stage, in ticks. */
  const DWELL: nat := 3000
  /** Counter value of the other controller at which the program stops. */
  const THRESHOLD: int := 1000

  datatype Stage = Connect | Pause1 | Pause2 | StartReceive | SendRequest | WaitReply | Pause3 | Exit

  /** The case labels of PrgTic's switch, in textual order; START_RECEIVE and WAIT_REPLY share one. */
  datatype Case = CConnect | CPause1 | CPause2 | CExchange | CSendRequest | CPause3 | CExit | CDefault

  function CaseOf(st: Stage): Case
  {
    match st
    case Connect => CConnect
    case Pause1 => CPause1
    case Pause2 => CPause2
    case StartReceive => CExchange
    case WaitReply => CExchange
    case SendRequest => CSendRequest
    case Pause3 => CPause3
    case Exit => CExit
  }

  function Position(c: Case): nat
  {
    match c
    case CConnect => 0
    case CPause1 => 1
    case CPause2 => 2
    case CExchange => 3
    case CSendRequest => 4
    case CPause3 => 5
    case CExit => 6
    case CDefault => 7
  }

  /** The case label that follows `c` in the text of the switch. */
  function NextCase(c: Case): (n: Case)
    requires c != CDefault
    ensures Position(n) == Position(c) + 1
  {
    match c
    case CConnect => CPause1
    case CPause1 => CPause2
    case CPause2 => CExchange
    case CExchange => CSendRequest
    case CSendRequest => CPause3
    case CPause3 => CExit
    case CExit => CDefault
  }

  /** The program's static variables. */
  datatype State = State(
    stage: Stage,
    timer: nat,
    command: BtCmd,
    commandStatus: int8,
    receiveCommandStatus: int8,
    wasReceive: bool,
    prevButtonState: int16,
    remoteCounterValue: int16)

  /**
   * What one tick reads: the level of button I8, the answer of the status
   * display helper (true once it has shown the status), and whether the
   * display is still being refreshed.
   */
  datatype TickIn = TickIn(button: int16, shown: bool, refreshing: bool)


  /** The three bytes of a request: motor number, then the duty as an INT16. */
  function Request(duty: int16): seq<byte>
  {
    [MOTOR_NUMBER] + EncodeInt16(duty)
  }

  /** The duty the button asks for: full when the button input is nonzero. */
  function ButtonDuty(level: int16): int16
  {
    if level != 0 then DUTY_MAX else 0
  }

  /**
   * The START_RECEIVE / WAIT_REPLY case once a reply (or the first start)
   * allows the next request: sample the button, react to the threshold or
   * to a button edge when the display is idle, and send.
   */
  function SendNext(s: State, inp: TickIn): (o: Outcome<State>)
    ensures o.rc == RC_CONTINUE && o.state.command == CmdSend && o.state.commandStatus == STATUS_PENDING
    ensures !o.state.wasReceive && (o.state.stage == SendRequest || o.state.stage == Pause3)
    ensures 1 <= |o.events| <= 2 && o.events[|o.events| - 1].BtSend?
    ensures o.state.remoteCounterValue == s.remoteCounterValue
  {
    var reached := !inp.refreshing && s.remoteCounterValue >= THRESHOLD;
    var edge := !inp.refreshing && !reached && s.prevButtonState != inp.button;
    var display :=
      if reached then [DisplayMsg(PositionReached)]
      else if edge then (if s.prevButtonState != 0 && inp.button == 0 then [DisplayMsg(PressButtonPrompt)] else [DisplayClear])
      else [];
    var duty := if reached then 0 else ButtonDuty(inp.button);
    var stage := if reached then Pause3 else s.stage;
    Outcome(
      s.(wasReceive := false,
         prevButtonState := if edge then inp.button else s.prevButtonState,
         timer := if reached then 0 else s.timer,
         stage := if stage != Pause3 then SendRequest else stage,
         command := CmdSend,
         commandStatus := STATUS_PENDING),
      RC_CONTINUE,
      display + [BtSend(BT_CHANNEL, Request(duty))])
  }

  /** Evaluates the statements under case label `c`, up to a break or to the next label. */
  function EvalCase(c: Case, s: State, inp: TickIn): (r: CaseResult<State>)
    ensures r.FallThrough? ==> c in {CPause1, CPause2, CPause3}
    ensures r.Break? ==> r.rc == RC_STOP || r.rc == RC_CONTINUE
    ensures r.Break? && r.rc == RC_STOP ==> c == CExit && !inp.refreshing
  {
    match c
    case CConnect =>
      if s.commandStatus >= 0 && inp.shown then
        if s.commandStatus != BT_SUCCESS then
          Break(s.(stage := Pause3, timer := 0), RC_CONTINUE, [])
        else
          Break(s.(stage := Pause1, command := CmdStartReceive, receiveCommandStatus := STATUS_PENDING, timer := 0),
                RC_CONTINUE, [BtStartReceive(BT_CHANNEL)])
      else Break(s, RC_CONTINUE, [])
    case CPause1 =>
      if s.timer + 1 >= DWELL then FallThrough(s.(stage := Pause2, timer := 0), [])
      else Break(s.(timer := s.timer + 1), RC_CONTINUE, [])
    case CPause2 =>
      if s.receiveCommandStatus >= 0 then
        if !inp.shown then Break(s, RC_CONTINUE, [])
        else if s.receiveCommandStatus == BT_SUCCESS then
          Break(s.(receiveCommandStatus := STATUS_PENDING, timer := 0), RC_CONTINUE, [])
        else Break(s.(stage := Pause3, timer := 0), RC_CONTINUE, [])
      else if s.timer + 1 >= DWELL then FallThrough(s.(timer := s.timer + 1, stage := StartReceive), [])
      else Break(s.(timer := s.timer + 1), RC_CONTINUE, [])
    case CExchange =>
      if !(s.wasReceive || s.commandStatus >= 0) then Break(s, RC_CONTINUE, [])
      else if s.commandStatus >= 0 && s.commandStatus != BT_SUCCESS then
        if inp.shown then Break(s.(stage := Pause3, timer := 0), RC_CONTINUE, [])
        else Break(s, RC_CONTINUE, [])
      else
        var o := SendNext(s, inp);
        Break(o.state, o.rc, o.events)
    case CSendRequest =>
      if s.commandStatus < 0 then Break(s, RC_CONTINUE, [])
      else if s.commandStatus == BT_SUCCESS then
        Break(s.(stage := WaitReply, command := CmdNoCmd, commandStatus := STATUS_PENDING), RC_CONTINUE, [])
      else if inp.shown then Break(s.(stage := Pause3, timer := 0), RC_CONTINUE, [])
      else Break(s, RC_CONTINUE, [])
    case CPause3 =>
      if s.timer + 1 >= DWELL then FallThrough(s.(timer := s.timer + 1, stage := Exit), [])
      else Break(s.(timer := s.timer + 1), RC_CONTINUE, [])
    case CExit =>
      Break(s, if inp.refreshing then RC_CONTINUE else RC_STOP, [])
    case CDefault =>
      Break(s, RC_CONTINUE, [])
  }

  /** Evaluates the switch from label `c` on, following fall-through until a break. */
  function Run(c: Case, s: State, inp: TickIn): (o: Outcome<State>)
    ensures o.rc == RC_STOP || o.rc == RC_CONTINUE
    decreases 8 - Position(c)
  {
    match EvalCase(c, s, inp)
    case Break(s', rc, evs) => Outcome(s', rc, evs)
    case FallThrough(s', evs) =>
      var o := Run(NextCase(c), s', inp);
      Outcome(o.state, o.rc, evs + o.events)
  }

  /** One unfolding of `Run`: a break ends the tick, a fall-through continues at the next label. */
  lemma RunUnfolds(c: Case, s: State, inp: TickIn)
    ensures var r := EvalCase(c, s, inp);
      && (r.Break? ==> Run(c, s, inp) == Outcome(r.state, r.rc, r.events))
      && (r.FallThrough? ==> c != CDefault && Run(c, s, inp) == Prefixed(r.events, Run(NextCase(c), r.state, inp)))
  {
  }

  /** One PrgTic call. */
  function Step(s: State, inp: TickIn): (o: Outcome<State>)
    ensures o.rc == RC_STOP || o.rc == RC_CONTINUE
  {
    Run(CaseOf(s.stage), s, inp)
  }

  /**
   * A tick falls through at most once: PAUSE_1 falls into PAUSE_2 with the
   * timer at 0, PAUSE_2 into the exchange label and PAUSE_3 into EXIT, and
   * each of those breaks.
   */
  lemma AtMostOneFallThrough(s: State, inp: TickIn)
    ensures var r := EvalCase(CaseOf(s.stage), s, inp);
      && (r.Break? ==> Step(s, inp) == Outcome(r.state, r.rc, r.events))
      && (r.FallThrough? ==>
            var r2 := EvalCase(NextCase(CaseOf(s.stage)), r.state, inp);
            r2.Break? && Step(s, inp) == Outcome(r2.state, r2.rc, r.events + r2.events))
  {
    var c := CaseOf(s.stage);
    var r := EvalCase(c, s, inp);
    RunUnfolds(c, s, inp);
    if r.FallThrough? {
      RunUnfolds(NextCase(c), r.state, inp);
    }
  }

  /** The statics before PrgInit runs: zero-initialised storage. */
  const Zero: State := State(Connect, 0, CmdNoCmd, 0, 0, false, 0, 0)

  /** PrgInit: emulate a pressed button, clear the remote counter, connect. */
  function Init(s: State): (t: State)
    ensures t.stage == Connect && t.command == CmdConnect && t.commandStatus == STATUS_PENDING
    ensures t.prevButtonState != 0 && t.remoteCounterValue == 0 && t.timer == s.timer
  {
    s.(prevButtonState := 1, remoteCounterValue := 0, stage := Connect,
       command := CmdConnect, commandStatus := STATUS_PENDING)
  }

  const InitEvents: seq<Event> := [BtConnect(BT_CHANNEL, PEER)]

  /** BtCallback: the status of any command except BtStartReceive. */
  function OnStatus(s: State, status: int8): (t: State)
    ensures t.commandStatus == status
    ensures t.stage == s.stage && t.timer == s.timer && t.command == s.command && t.wasReceive == s.wasReceive
  {
    s.(commandStatus := status)
  }

  /** BtReceiveCallback: a start-receive status, or an incoming message {counter number, INT16 value}. */
  function OnReceive(s: State, status: int8, msg: seq<byte>): (t: State)
    requires status == BT_MSG_INDICATION ==> |msg| >= 3
    ensures t.wasReceive && t.stage == s.stage && t.timer == s.timer && t.commandStatus == s.commandStatus
    ensures status != BT_MSG_INDICATION ==> t.receiveCommandStatus == status && t.remoteCounterValue == s.remoteCounterValue
    ensures status == BT_MSG_INDICATION ==> t.receiveCommandStatus == s.receiveCommandStatus
  {
    var s1 := s.(wasReceive := true);
    if status == BT_MSG_INDICATION then
      if 1 <= msg[0] <= N_CNT then s1.(remoteCounterValue := DecodeInt16(msg[1..3])) else s1
    else s1.(receiveCommandStatus := status)
  }

  /** Runs consecutive ticks with no callback in between; the final state. */
  function RunTicks(s: State, ins: seq<TickIn>): State
    decreases |ins|
  {
    if ins == [] then s else RunTicks(Step(s, ins[0]).state, ins[1..])
  }

  /** The return codes of consecutive ticks with no callback in between. */
  function Returns(s: State, ins: seq<TickIn>): (rcs: seq<int>)
    ensures |rcs| == |ins|
    decreases |ins|
  {
    if ins == [] then [] else [Step(s, ins[0]).rc] + Returns(Step(s, ins[0]).state, ins[1..])
  }

  /** Rank of a stage in the declared order; only WAIT_REPLY -> SEND_REQUEST goes back. */
  function Rank(st: Stage): nat
  {
    match st
    case Connect => 0
    case Pause1 => 1
    case Pause2 => 2
    case StartReceive => 3
    case SendRequest => 4
    case WaitReply => 5
    case Pause3 => 6
    case Exit => 7
  }

  // ---------------------------------------------------------------------
  // Properties of one tick and of the callbacks

  lemma InitConnects(s: State)
    ensures Init(s).stage == Connect && Init(s).command == CmdConnect
    ensures Init(s).commandStatus == STATUS_PENDING
    ensures Init(s).prevButtonState == 1 && Init(s).remoteCounterValue == 0
    ensures AsyncCount(InitEvents) == 1 && InitEvents[0] == BtConnect(BT_CHANNEL, PEER)
  {
  }

  /** CONNECT waits, changing nothing, while the connect status is pending. */
  lemma ConnectPendingWaits(s: State, inp: TickIn)
    requires s.stage == Connect && s.commandStatus < 0
    ensures Step(s, inp) == Outcome(s, RC_CONTINUE, [])
  {
  }

  /** CONNECT, once the status is reported and shown: on to PAUSE_1 and start receiving, or to PAUSE_3. */
  lemma ConnectReported(s: State, inp: TickIn)
    requires s.stage == Connect && s.commandStatus >= 0 && inp.shown
    ensures var o := Step(s, inp);
      && o.state.timer == 0 && o.rc == RC_CONTINUE
      && (s.commandStatus != BT_SUCCESS ==> o.state == s.(stage := Pause3, timer := 0) && o.events == [])
      && (s.commandStatus == BT_SUCCESS ==>
            && o.state.stage == Pause1 && o.state.receiveCommandStatus == STATUS_PENDING
            && o.state.command == CmdStartReceive
            && o.events == [BtStartReceive(BT_CHANNEL)])
  {
  }

  /** A PAUSE_1 tick counts one tick and leaves PAUSE_1 only once the count reaches the dwell. */
  lemma Pause1Dwell(s: State, inp: TickIn)
    requires s.stage == Pause1
    ensures var o := Step(s, inp);
      && (s.timer + 1 < DWELL ==> o == Outcome(s.(timer := s.timer + 1), RC_CONTINUE, []))
      && (s.timer + 1 >= DWELL ==> o.state.stage != Pause1)
  {
  }

  /** PAUSE_2 without a start-receive status counts; it moves on only at the dwell, into the exchange. */
  lemma Pause2Dwell(s: State, inp: TickIn)
    requires s.stage == Pause2 && s.receiveCommandStatus < 0
    ensures var o := Step(s, inp);
      && (s.timer + 1 < DWELL ==> o == Outcome(s.(timer := s.timer + 1), RC_CONTINUE, []))
      && (s.timer + 1 >= DWELL ==> o.state.stage in {StartReceive, SendRequest, Pause3} && o.rc == RC_CONTINUE)
  {
  }

  /** PAUSE_2 with a reported start-receive status: success restarts the dwell, failure ends in PAUSE_3. */
  lemma Pause2Status(s: State, inp: TickIn)
    requires s.stage == Pause2 && s.receiveCommandStatus >= 0 && inp.shown
    ensures var o := Step(s, inp);
      && o.events == [] && o.state.timer == 0
      && (s.receiveCommandStatus == BT_SUCCESS ==> o.state == s.(receiveCommandStatus := STATUS_PENDING, timer := 0))
      && (s.receiveCommandStatus != BT_SUCCESS ==> o.state == s.(stage := Pause3, timer := 0))
  {
  }

  /**
   * The send step: when the exchange may proceed, one message
   * {MOTOR_NUMBER, duty} is sent, with duty = DUTY_MAX exactly when the
   * button is pressed, unless the remote counter has reached the threshold.
   */
  lemma SendBuildsRequest(s: State, inp: TickIn)
    requires s.stage in {StartReceive, WaitReply}
    requires s.wasReceive || s.commandStatus >= 0
    requires !(s.commandStatus >= 0 && s.commandStatus != BT_SUCCESS)
    ensures var o := Step(s, inp);
      var reached := !inp.refreshing && s.remoteCounterValue >= THRESHOLD;
      && |o.events| >= 1 && AsyncCount(o.events) == 1
      && o.events[|o.events| - 1] == BtSend(BT_CHANNEL, Request(if reached then 0 else ButtonDuty(inp.button)))
      && o.state.command == CmdSend && o.state.commandStatus == STATUS_PENDING
      && !o.state.wasReceive && o.rc == RC_CONTINUE
      && (reached ==> o.state.stage == Pause3 && o.state.timer == 0 && o.events[0] == DisplayMsg(PositionReached))
      && (!reached ==> o.state.stage == SendRequest)
  {
    SendNextSendsOnce(s, inp);
  }

  /** The send step issues exactly one asynchronous command, the BtSend, after at most one display call. */
  lemma SendNextSendsOnce(s: State, inp: TickIn)
    ensures var o := SendNext(s, inp);
      var d := if !inp.refreshing && s.remoteCounterValue >= THRESHOLD then 0 else ButtonDuty(inp.button);
      && 1 <= |o.events| <= 2
      && o.events[|o.events| - 1] == BtSend(BT_CHANNEL, Request(d))
      && AsyncCount(o.events) == 1
  {
    var o := SendNext(s, inp);
    var d := if !inp.refreshing && s.remoteCounterValue >= THRESHOLD then 0 else ButtonDuty(inp.button);
    var display := o.events[..|o.events| - 1];
    assert o.events == display + [BtSend(BT_CHANNEL, Request(d))];
    AsyncCountSmall();
    assert AsyncCount(display) == 0;
    AsyncCountAppend(display, [BtSend(BT_CHANNEL, Request(d))]);
  }

  /** The duty carried by a request is DUTY_MAX exactly when the button input is nonzero, otherwise 0. */
  lemma ButtonDutyIsFullOrOff(level: int16)
    ensures ButtonDuty(level) == DUTY_MAX <==> level != 0
    ensures ButtonDuty(level) == 0 <==> level == 0
  {
  }

  /** A button edge, seen while the display is idle and below the threshold, updates the remembered level and the display. */
  lemma SendTracksButtonEdges(s: State, inp: TickIn)
    requires s.stage in {StartReceive, WaitReply}
    requires s.wasReceive || s.commandStatus >= 0
    requires !(s.commandStatus >= 0 && s.commandStatus != BT_SUCCESS)
    requires !inp.refreshing && s.remoteCounterValue < THRESHOLD
    ensures var o := Step(s, inp);
      && o.state.prevButtonState == inp.button
      && (s.prevButtonState == inp.button ==> |o.events| == 1)
      && (s.prevButtonState != 0 && inp.button == 0 ==> o.events[0] == DisplayMsg(PressButtonPrompt))
      && (s.prevButtonState != inp.button && !(s.prevButtonState != 0 && inp.button == 0) ==> o.events[0] == DisplayClear)
  {
  }

  /** A send failure, once shown, ends in PAUSE_3; a success waits for the reply with no command outstanding. */
  lemma SendRequestOutcome(s: State, inp: TickIn)
    requires s.stage == SendRequest
    ensures var o := Step(s, inp);
      && o.events == [] && o.rc == RC_CONTINUE
      && (s.commandStatus < 0 ==> o.state == s)
      && (s.commandStatus == BT_SUCCESS ==>
            o.state == s.(stage := WaitReply, command := CmdNoCmd, commandStatus := STATUS_PENDING))
      && (s.commandStatus >= 0 && s.commandStatus != BT_SUCCESS && inp.shown ==>
            o.state == s.(stage := Pause3, timer := 0))
  {
  }

  /** A reported failure while waiting for a reply (the peer disconnected) ends in PAUSE_3 once shown. */
  lemma ExchangeFailure(s: State, inp: TickIn)
    requires s.stage in {StartReceive, WaitReply}
    requires s.commandStatus >= 0 && s.commandStatus != BT_SUCCESS
    ensures var o := Step(s, inp);
      && o.events == [] && o.rc == RC_CONTINUE
      && o.state == (if inp.shown then s.(stage := Pause3, timer := 0) else s)
  {
  }

  /** PrgTic returns STOP exactly when it ends in EXIT with the display idle, and CONTINUE otherwise. */
  lemma StopOnlyInExit(s: State, inp: TickIn)
    ensures var o := Step(s, inp);
      && (o.rc == RC_STOP <==> o.state.stage == Exit && !inp.refreshing)
      && (o.rc == RC_STOP || o.rc == RC_CONTINUE)
  {
    AtMostOneFallThrough(s, inp);
    match s.stage
    case StartReceive =>
    case WaitReply =>
    case Pause2 =>
    case Pause3 =>
    case _ =>
  }

  /** The statements under one label issue at most one asynchronous command, and a label that falls through issues nothing. */
  lemma CaseCommands(c: Case, s: State, inp: TickIn)
    ensures var r := EvalCase(c, s, inp);
      AsyncCount(r.events) <= 1 && (r.FallThrough? ==> r.events == [])
  {
    AsyncCountSmall();
    if c == CExchange {
      SendNextSendsOnce(s, inp);
    }
  }

  /** Every tick issues at most one asynchronous command. */
  lemma AtMostOneCommandPerTick(s: State, inp: TickIn)
    ensures AsyncCount(Step(s, inp).events) <= 1
  {
    AtMostOneFallThrough(s, inp);
    var c := CaseOf(s.stage);
    var r := EvalCase(c, s, inp);
    CaseCommands(c, s, inp);
    if r.FallThrough? {
      var r2 := EvalCase(NextCase(c), r.state, inp);
      CaseCommands(NextCase(c), r.state, inp);
      assert r.events + r2.events == r2.events;
    }
  }

  /** Stages move forward in the declared order, except for the reply loop WAIT_REPLY -> SEND_REQUEST. */
  lemma StagesMoveForward(s: State, inp: TickIn)
    ensures var t := Step(s, inp).state.stage;
      Rank(t) >= Rank(s.stage) || (s.stage == WaitReply && t == SendRequest)
  {
    AtMostOneFallThrough(s, inp);
    match s.stage
    case StartReceive =>
    case WaitReply =>
    case Pause2 =>
    case Pause3 =>
    case _ =>
  }

  /** BtCallback only records the status. */
  lemma StatusCallbackRecords(s: State, status: int8)
    ensures OnStatus(s, status).commandStatus == status
    ensures OnStatus(s, status).(commandStatus := s.commandStatus) == s
  {
  }

  /**
   * BtReceiveCallback always notes that something was received; a message
   * for a counter 1..N_CNT overwrites the remote counter from bytes 1-2,
   * any other message leaves it, and any other status is stored.
   */
  lemma ReceiveCallbackUpdates(s: State, status: int8, msg: seq<byte>)
    requires status == BT_MSG_INDICATION ==> |msg| >= 3
    ensures var t := OnReceive(s, status, msg);
      && t.wasReceive
      && t.stage == s.stage && t.timer == s.timer && t.commandStatus == s.commandStatus
      && (status == BT_MSG_INDICATION && 1 <= msg[0] <= N_CNT ==>
            t.remoteCounterValue == DecodeInt16(msg[1..3]) && t.receiveCommandStatus == s.receiveCommandStatus)
      && (status == BT_MSG_INDICATION && !(1 <= msg[0] <= N_CNT) ==> t == s.(wasReceive := true))
      && (status != BT_MSG_INDICATION ==>
            t.receiveCommandStatus == status && t.remoteCounterValue == s.remoteCounterValue)
  {
  }

  // ---------------------------------------------------------------------
  // Properties of runs of ticks

  /** Inside the final dwell, every tick continues and counts: PAUSE_3 with timer + n below the dwell. */
  lemma {:induction false} Pause3Counts(s: State, ins: seq<TickIn>)
    requires s.stage == Pause3 && s.timer + |ins| < DWELL
    ensures RunTicks(s, ins) == s.(timer := s.timer + |ins|)
    ensures forall k :: 0 <= k < |ins| ==> Returns(s, ins)[k] == RC_CONTINUE
    decreases |ins|
  {
    if ins != [] {
      var s1 := Step(s, ins[0]).state;
      assert s1 == s.(timer := s.timer + 1);
      Pause3Counts(s1, ins[1..]);
    }
  }

  /**
   * A failure shown at some tick leads to PAUSE_3 with the timer at 0; from
   * there the program continues for DWELL - 1 ticks, and the tick after
   * enters EXIT, stopping then if the display is idle.
   */
  lemma FailureDwellThenStop(s: State, ins: seq<TickIn>)
    requires s.stage == Pause3 && s.timer == 0 && |ins| == DWELL
    ensures forall k :: 0 <= k < DWELL - 1 ==> Returns(s, ins)[k] == RC_CONTINUE
    ensures Returns(s, ins)[DWELL - 1] == (if ins[DWELL - 1].refreshing then RC_CONTINUE else RC_STOP)
    ensures RunTicks(s, ins).stage == Exit
  {
    var n := DWELL - 1;
    Pause3Counts(s, ins[..n]);
    var s1 := RunTicks(s, ins[..n]);
    RunTicksSplit(s, ins[..n], ins[n..]);
    ReturnsSplit(s, ins[..n], ins[n..]);
    assert ins[..n] + ins[n..] == ins;
    assert ins[n..] == [ins[n]];
    assert Step(s1, ins[n]).state.stage == Exit;
  }

  lemma {:induction false} RunTicksSplit(s: State, a: seq<TickIn>, b: seq<TickIn>)
    ensures RunTicks(s, a + b) == RunTicks(RunTicks(s, a), b)
    decreases |a|
  {
    if a != [] {
      assert (a + b)[1..] == a[1..] + b;
      RunTicksSplit(Step(s, a[0]).state, a[1..], b);
    } else {
      assert a + b == b;
    }
  }

  lemma {:induction false} ReturnsSplit(s: State, a: seq<TickIn>, b: seq<TickIn>)
    ensures Returns(s, a + b) == Returns(s, a) + Returns(RunTicks(s, a), b)
    decreases |a|
  {
    if a != [] {
      assert (a + b)[1..] == a[1..] + b;
      ReturnsSplit(Step(s, a[0]).state, a[1..], b);
    } else {
      assert a + b == b;
    }
  }

  // ---------------------------------------------------------------------
  // The program's statics, updated in place

  class ButtonPart {
    var stage: Stage
    var timer: nat
    var command: BtCmd
    var commandStatus: int8
    var receiveCommandStatus: int8
    var wasReceive: bool
    var prevButtonState: int16
    var remoteCounterValue: int16
    /** The hook calls made so far, oldest first. */
    var issued: seq<Event>

    function Snapshot(): State
      reads this
    {
      State(stage, timer, command, commandStatus, receiveCommandStatus, wasReceive, prevButtonState, remoteCounterValue)
    }

    /** The statics as the loader leaves them: zero-initialised. */
    constructor ()
      ensures Snapshot() == Zero && issued == []
    {
      stage, timer, command := Connect, 0, CmdNoCmd;
      commandStatus, receiveCommandStatus, wasReceive := 0, 0, false;
      prevButtonState, remoteCounterValue := 0, 0;
      issued := [];
    }

    method PrgInit()
      modifies this
      ensures Snapshot() == Init(old(Snapshot()))
      ensures issued == old(issued) + InitEvents
    {
      prevButtonState := 1;
      remoteCounterValue := 0;
      stage := Connect;
      command := CmdConnect;
      commandStatus := STATUS_PENDING;
      issued := issued + [BtConnect(BT_CHANNEL, PEER)];
    }

    method BtCallback(status: int8)
      modifies this
      ensures Snapshot() == OnStatus(old(Snapshot()), status) && issued == old(issued)
    {
      commandStatus := status;
    }

    method BtReceiveCallback(status: int8, msg: seq<byte>)
      requires status == BT_MSG_INDICATION ==> |msg| >= 3
      modifies this
      ensures Snapshot() == OnReceive(old(Snapshot()), status, msg) && issued == old(issued)
    {
      wasReceive := true;
      if status == BT_MSG_INDICATION {
        var counter := msg[0];
        if counter >= 1 && counter <= N_CNT {
          remoteCounterValue := DecodeInt16(msg[1..3]);
        }
      } else {
        receiveCommandStatus := status;
      }
    }

    /**
     * PrgTic: the switch jumps to the label of the current stage and keeps
     * executing labels in textual order until a break (C fall-through).
     */
    method PrgTic(button: int16, shown: bool, refreshing: bool) returns (rc: int)
      modifies this
      ensures var o := Step(old(Snapshot()), TickIn(button, shown, refreshing));
        Snapshot() == o.state && rc == o.rc && issued == old(issued) + o.events
    {
      rc := RunFrom(CaseOf(stage), button, shown, refreshing);
    }

    /** The switch from case label `pc` on: this label's statements, then the next label's if it falls through. */
    method RunFrom(pc: Case, button: int16, shown: bool, refreshing: bool) returns (rc: int)
      modifies this
      ensures var o := Run(pc, old(Snapshot()), TickIn(button, shown, refreshing));
        Snapshot() == o.state && rc == o.rc && issued == old(issued) + o.events
      decreases 8 - Position(pc)
    {
      RunUnfolds(pc, Snapshot(), TickIn(button, shown, refreshing));
      var fallThrough;
      rc, fallThrough := ExecuteCase(pc, button, shown, refreshing);
      if fallThrough {
        rc := RunFrom(NextCase(pc), button, shown, refreshing);
      }
    }

    /** The statements under one case label, up to its break or to the next label. */
    method ExecuteCase(pc: Case, button: int16, shown: bool, refreshing: bool) returns (rc: int, fallThrough: bool)
      modifies this
      ensures var r := EvalCase(pc, old(Snapshot()), TickIn(button, shown, refreshing));
        && fallThrough == r.FallThrough?
        && Snapshot() == r.state
        && issued == old(issued) + r.events
        && (!fallThrough ==> rc == r.rc)
    {
      match pc
      case CConnect =>
        rc, fallThrough := ConnectCase(pc, button, shown, refreshing);
      case CPause1 =>
        rc, fallThrough := Pause1Case(pc, button, shown, refreshing);
      case CPause2 =>
        rc, fallThrough := Pause2Case(pc, button, shown, refreshing);
      case CExchange =>
        rc, fallThrough := ExchangeCase(pc, button, shown, refreshing);
      case CSendRequest =>
        rc, fallThrough := SendRequestCase(pc, button, shown, refreshing);
      case CPause3 =>
        rc, fallThrough := Pause3Case(pc, button, shown, refreshing);
      case CExit =>
        rc, fallThrough := if refreshing then RC_CONTINUE else RC_STOP, false;
      case CDefault =>
        rc, fallThrough := RC_CONTINUE, false;
    }

    /** CONNECT: once the connect status is shown, start receiving or give up. */
    method ConnectCase(pc: Case, button: int16, shown: bool, refreshing: bool) returns (rc: int, fallThrough: bool)
      requires pc == CConnect
      modifies this
      ensures var r := EvalCase(pc, old(Snapshot()), TickIn(button, shown, refreshing));
        && fallThrough == r.FallThrough?
        && Snapshot() == r.state
        && issued == old(issued) + r.events
        && (!fallThrough ==> rc == r.rc)
    {
      rc, fallThrough := RC_CONTINUE, false;
      if commandStatus >= 0 {
        if shown {
          if commandStatus != BT_SUCCESS {
            stage := Pause3;
          } else {
            stage := Pause1;
            command := CmdStartReceive;
            receiveCommandStatus := STATUS_PENDING;
            issued := issued + [BtStartReceive(BT_CHANNEL)];
          }
          timer := 0;
        }
      }
    }

    /** PAUSE_1: count a tick, and after 3000 fall into PAUSE_2. */
    method Pause1Case(pc: Case, button: int16, shown: bool, refreshing: bool) returns (rc: int, fallThrough: bool)
      requires pc == CPause1
      modifies this
      ensures var r := EvalCase(pc, old(Snapshot()), TickIn(button, shown, refreshing));
        && fallThrough == r.FallThrough?
        && Snapshot() == r.state
        && issued == old(issued) + r.events
        && (!fallThrough ==> rc == r.rc)
    {
      rc, fallThrough := RC_CONTINUE, false;
      timer := timer + 1;
      if timer >= DWELL {
        stage := Pause2;
        timer := 0;
        fallThrough := true;
      }
    }

    /** PAUSE_2: report the receive status, or after 3000 ticks fall into START_RECEIVE. */
    method Pause2Case(pc: Case, button: int16, shown: bool, refreshing: bool) returns (rc: int, fallThrough: bool)
      requires pc == CPause2
      modifies this
      ensures var r := EvalCase(pc, old(Snapshot()), TickIn(button, shown, refreshing));
        && fallThrough == r.FallThrough?
        && Snapshot() == r.state
        && issued == old(issued) + r.events
        && (!fallThrough ==> rc == r.rc)
    {
      rc, fallThrough := RC_CONTINUE, false;
      if receiveCommandStatus >= 0 {
        if shown {
          if receiveCommandStatus == BT_SUCCESS {
            receiveCommandStatus := STATUS_PENDING;
            timer := 0;
          } else {
            stage := Pause3;
            timer := 0;
          }
        }
      } else {
        timer := timer + 1;
        if timer >= DWELL {
          stage := StartReceive;
          fallThrough := true;
        }
      }
    }

    /** START_RECEIVE / WAIT_REPLY: on a failure go to PAUSE_3 once shown; after a reply send the next request. */
    method ExchangeCase(pc: Case, button: int16, shown: bool, refreshing: bool) returns (rc: int, fallThrough: bool)
      requires pc == CExchange
      modifies this
      ensures var r := EvalCase(pc, old(Snapshot()), TickIn(button, shown, refreshing));
        && fallThrough == r.FallThrough?
        && Snapshot() == r.state
        && issued == old(issued) + r.events
        && (!fallThrough ==> rc == r.rc)
    {
      rc, fallThrough := RC_CONTINUE, false;
      if wasReceive || commandStatus >= 0 {
        if commandStatus >= 0 && commandStatus != BT_SUCCESS {
          if shown {
            stage := Pause3;
            timer := 0;
          }
        } else {
          SendButtonRequest(button, shown, refreshing);
        }
      }
    }

    /** Samples the button, shows the threshold or a button edge, and sends the duty request. */
    method SendButtonRequest(button: int16, shown: bool, refreshing: bool)
      modifies this
      ensures var o := SendNext(old(Snapshot()), TickIn(button, shown, refreshing));
        Snapshot() == o.state && issued == old(issued) + o.events
    {
      wasReceive := false;
      var curButtonState := button;
      var duty: int16 := if curButtonState != 0 then DUTY_MAX else 0;
      if !refreshing {
        if remoteCounterValue >= THRESHOLD {
          issued := issued + [DisplayMsg(PositionReached)];
          duty := 0;
          stage := Pause3;
          timer := 0;
        } else if prevButtonState != curButtonState {
          if prevButtonState != 0 && curButtonState == 0 {
            issued := issued + [DisplayMsg(PressButtonPrompt)];
          } else {
            issued := issued + [DisplayClear];
          }
          prevButtonState := curButtonState;
        }
      }
      var msg := [MOTOR_NUMBER] + EncodeInt16(duty);
      stage := if stage != Pause3 then SendRequest else stage;
      command := CmdSend;
      commandStatus := STATUS_PENDING;
      issued := issued + [BtSend(BT_CHANNEL, msg)];
    }

    /** SEND_REQUEST: on a successful send wait for the reply; on a shown failure go to PAUSE_3. */
    method SendRequestCase(pc: Case, button: int16, shown: bool, refreshing: bool) returns (rc: int, fallThrough: bool)
      requires pc == CSendRequest
      modifies this
      ensures var r := EvalCase(pc, old(Snapshot()), TickIn(button, shown, refreshing));
        && fallThrough == r.FallThrough?
        && Snapshot() == r.state
        && issued == old(issued) + r.events
        && (!fallThrough ==> rc == r.rc)
    {
      rc, fallThrough := RC_CONTINUE, false;
      if commandStatus >= 0 {
        if commandStatus == BT_SUCCESS {
          stage := WaitReply;
          command := CmdNoCmd;
          commandStatus := STATUS_PENDING;
        } else {
          if shown {
            stage := Pause3;
            timer := 0;
          }
        }
      }
    }

    /** PAUSE_3: count a tick, and after 3000 fall into EXIT. */
    method Pause3Case(pc: Case, button: int16, shown: bool, refreshing: bool) returns (rc: int, fallThrough: bool)
      requires pc == CPause3
      modifies this
      ensures var r := EvalCase(pc, old(Snapshot()), TickIn(button, shown, refreshing));
        && fallThrough == r.FallThrough?
        && Snapshot() == r.state
        && issued == old(issued) + r.events
        && (!fallThrough ==> rc == r.rc)
    {
      rc, fallThrough := RC_CONTINUE, false;
      timer := timer + 1;
      if timer >= DWELL {
        stage := Exit;
        fallThrough := true;
      }
    }
  }
}

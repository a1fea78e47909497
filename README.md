# ROBO TX controller demo programs, modelled in Dafny

The ROBO TX controller runs a user program cooperatively: the firmware calls
`PrgInit` once, then calls `PrgTic` every millisecond until it returns
something other than `0x7FFF` (`0` stops the program normally). Between
ticks the firmware may call the callbacks that the program passed to its
Bluetooth or I2C hooks. A program sees the controller through its
"transfer area": inputs such as sensor levels, counters and
position-reached flags, and outputs such as PWM duties, distances and
command ids. It keeps its own state in file-level statics.

This project models ten of the controller's demo programs, one Dafny module
and file per C file:

| file | module | program |
|---|---|---|
| `stop_go_bt_button.dfy` | `StopGoBtButtonPart` | Bluetooth "stop and go", button side: connects, sends the button's duty request, reads back the remote counter |
| `stop_go_bt_motor.dfy` | `StopGoBtMotorPart` | Bluetooth "stop and go", motor side: listens, applies duty requests, replies with the counter |
| `protocol.dfy` | `StopGoProtocol` | what the two Bluetooth programs' messages mean to each other |
| `i2c_tpa81.dfy` | `I2cTpa81` | polls a TPA81 thermopile array over I2C and shows the nine readings |
| `i2c_temp.dfy` | `I2cTemp` | configures a DS1631 thermometer over I2C and shows the temperature every second |
| `light_run.dfy` | `LightRun` | a running light over six lamps, three rounds, each faster than the last |
| `motor_run.dfy` | `MotorRun` | ramps a motor up one way, pauses, and ramps it down the other way |
| `stop_go.dfy` | `StopGo` | local "stop and go": the motor runs while the button is pressed, until counter C1 reaches 1000 |
| `motor_ex_ext1.dfy` | `MotorExExt1` | extended motor control: 200 steps forward, 200 back, forever |
| `motor_ex_2m_master.dfy` | `MotorEx2MMaster` | the same with two motors, the second linked to the first |
| `warning_light.dfy` | `WarningLight` | flashes a lamp faster as an ultrasonic sensor reports a closer obstacle |

`robo.dfy` (module `Robo`) holds what they share:
- the return codes;
- the firmware header constants the programs use;
- the integer widths of the transfer area;
- the two-byte copy of an INT16 in Bluetooth messages;
- the `Event` record of calls made through the firmware's hook table: the
  Bluetooth and I2C commands, and display messages shown or cleared.

Each program is built the same way:
- A value `State` holds the statics and the transfer-area cells the program
  uses.
- Pure functions give the effect of one tick (`Step`), of `PrgInit`
  (`Init`) and of each callback.
- Lemmas state what the program promises about these functions.
- A `class` whose fields are the statics and the transfer-area cells has
  methods `PrgInit`, `PrgTic` and one per callback. They update the fields
  in place, as the C code does, and each is proved to change the state
  exactly as its function says (`Snapshot() == Step(old(Snapshot()))`).
- Where the C code has a defect (see "## Findings"), the program's function
  and the class follow the code as written, and a separate corrected
  function carries the intended behaviour:
  - in `I2cTemp`, `Step` and `Ds1631.PrgTic` show the temperature with
    `DecodeAsWritten`, and `StepCorrected` shows it with `Decode`;
  - in `WarningLight`, `StepAsWritten` and the class use the program's
    interval test `DueAsWritten`, and `Step` uses the wrap-around-safe `Due`.
- Every call a program makes through the hook table is appended to a
  `issued` sequence of `Event`s.
- Answers the program gets from display helpers outside this model become
  tick inputs:
  - `shown` is what `BtDisplayCommandStatus` returns;
  - `refreshing` is what `IsDisplayBeingRefreshed` returns.

A C `switch` whose cases fall through is modelled case by case:
- In the Bluetooth programs, `EvalCase` ends a case in `Break` or
  `FallThrough`, and `Run` follows the labels. In the classes, `PrgTic`
  calls the recursive method `RunFrom` on the label of the current stage.
  `RunFrom` runs one `ExecuteCase` per label and recurses on the next label
  until a case breaks.
- In the `while (1)` programs (`LightRun`, `MotorRun`), one pass of the
  loop ends in `Return` or `Continue`, and `Run` repeats passes.
- In the I2C programs every case returns, so a tick is a single case.

## Model

| member | source | states |
|---|---|---|
| Robo.Wrap32 | Demo/I2cTpa81/I2cTpa81.c:50-51 | an `unsigned int` keeps every value it can represent unchanged |
| Robo.Wrap16 | Demo/WarningLight/WarningLight.c:112-120 | an INT16 keeps every value in range and otherwise holds the value modulo 2^16 |
| Robo.EncodeInt16 | Demo/StopGoBtButtonPart/StopGoBtButtonPart.c:283-284 | the two bytes of an INT16 are little-endian: they hold the value modulo 2^16, low byte first, with the sign in bit 7 of the second byte |
| Robo.DecodeInt16 | Demo/StopGoBtMotorPart/StopGoBtMotorPart.c:93 | the INT16 read from two little-endian bytes agrees with them modulo 2^16 and is negative exactly when bit 7 of the second byte is set |
| Robo.ToInt16 | Demo/StopGoBtMotorPart/StopGoBtMotorPart.c:84-102 | a counter below 0x8000 keeps its value as INT16, larger ones become negative, always congruent modulo 2^16 |
| Robo.DecodeEncodeInt16 | Demo/StopGoBtMotorPart/StopGoBtMotorPart.c:93-103 | the INT16 copied into two message bytes is the INT16 copied back out of them |
| Robo.EncodeDecodeInt16 | Demo/StopGoBtButtonPart/StopGoBtButtonPart.c:94-97 | any two message bytes are the encoding of the INT16 copied out of them |
| StopGoBtButtonPart.Init | Demo/StopGoBtButtonPart/StopGoBtButtonPart.c:126-136 | PrgInit enters CONNECT with the connect command pending (status -1), a nonzero remembered button level and a zero remote counter, keeping the timer |
| StopGoBtButtonPart.InitConnects | Demo/StopGoBtButtonPart/StopGoBtButtonPart.c:126-136 | PrgInit pretends the button was pressed, clears the remote counter, enters CONNECT with a pending connect command, and issues exactly one BtConnect |
| StopGoBtButtonPart.Step | Demo/StopGoBtButtonPart/StopGoBtButtonPart.c:147-336 | a tick returns either 0x7FFF or 0 |
| StopGoBtButtonPart.SendNext | Demo/StopGoBtButtonPart/StopGoBtButtonPart.c:242-290 | sending marks a pending BtSend command, clears was_receive, moves to SEND_REQUEST (or PAUSE_3 at the threshold), keeps the remote counter, and ends in exactly one BtSend after at most one display call |
| StopGoBtButtonPart.OnStatus | Demo/StopGoBtButtonPart/StopGoBtButtonPart.c:59-66 | BtCallback stores the status and leaves the stage, the timer, the command and was_receive alone |
| StopGoBtButtonPart.OnReceive | Demo/StopGoBtButtonPart/StopGoBtButtonPart.c:76-102 | BtReceiveCallback sets was_receive and never moves the stage, the timer or command_status; a start-receive status is stored in receive_command_status, a message leaves that alone |
| StopGoBtButtonPart.ConnectPendingWaits | Demo/StopGoBtButtonPart/StopGoBtButtonPart.c:161-182 | in CONNECT, a tick with no connect status yet changes nothing, issues nothing and continues |
| StopGoBtButtonPart.ConnectReported | Demo/StopGoBtButtonPart/StopGoBtButtonPart.c:161-182 | once the connect status is shown, failure goes to PAUSE_3, success goes to PAUSE_1 and starts receiving with exactly one BtStartReceive; the timer restarts |
| StopGoBtButtonPart.Pause1Dwell | Demo/StopGoBtButtonPart/StopGoBtButtonPart.c:184-193 | PAUSE_1 only counts ticks until 3000, then leaves PAUSE_1 in the same tick |
| StopGoBtButtonPart.Pause2Dwell | Demo/StopGoBtButtonPart/StopGoBtButtonPart.c:195-224 | without a receive status PAUSE_2 counts ticks; at 3000 it falls through into the exchange |
| StopGoBtButtonPart.Pause2Status | Demo/StopGoBtButtonPart/StopGoBtButtonPart.c:196-215 | a shown receive status restarts the dwell on success, or goes to PAUSE_3 on failure |
| StopGoBtButtonPart.SendBuildsRequest | Demo/StopGoBtButtonPart/StopGoBtButtonPart.c:228-293 | an exchange tick issues exactly one BtSend of the request (duty 0 once the remote counter reached 1000, else the button's duty), marks the send pending, clears was_receive, and goes to SEND_REQUEST, or to PAUSE_3 with a message at the threshold |
| StopGoBtButtonPart.SendNextSendsOnce | Demo/StopGoBtButtonPart/StopGoBtButtonPart.c:242-290 | building the request issues at most one display call and then exactly one BtSend carrying the chosen duty |
| StopGoBtButtonPart.ButtonDutyIsFullOrOff | Demo/StopGoBtButtonPart/StopGoBtButtonPart.c:251 | the requested duty is DUTY_MAX exactly when the button level is nonzero, and 0 exactly when it is zero |
| StopGoBtButtonPart.SendTracksButtonEdges | Demo/StopGoBtButtonPart/StopGoBtButtonPart.c:253-279 | below the threshold the remembered level becomes the current one; a release shows the prompt, a press clears the display, a steady level shows nothing |
| StopGoBtButtonPart.SendRequestOutcome | Demo/StopGoBtButtonPart/StopGoBtButtonPart.c:295-314 | SEND_REQUEST waits for the send status; success moves to WAIT_REPLY with no command, a shown failure to PAUSE_3 |
| StopGoBtButtonPart.ExchangeFailure | Demo/StopGoBtButtonPart/StopGoBtButtonPart.c:230-239 | a failed send status in the exchange goes to PAUSE_3 once shown and sends nothing |
| StopGoBtButtonPart.StopOnlyInExit | Demo/StopGoBtButtonPart/StopGoBtButtonPart.c:316-336 | a tick returns 0 exactly when it ends in EXIT with the display idle, and otherwise 0x7FFF |
| StopGoBtButtonPart.EvalCase | Demo/StopGoBtButtonPart/StopGoBtButtonPart.c:159-335 | only the three pause labels can fall through to the next label; a `break` returns 0 or 0x7FFF, and 0 only from EXIT with the display idle |
| StopGoBtButtonPart.Run | Demo/StopGoBtButtonPart/StopGoBtButtonPart.c:159-335 | following the fall-throughs from any label ends with a return code of 0 or 0x7FFF |
| StopGoBtButtonPart.AtMostOneCommandPerTick | Demo/StopGoBtButtonPart/StopGoBtButtonPart.c:159-335 | no tick issues more than one Bluetooth command |
| StopGoBtButtonPart.CaseCommands | Demo/StopGoBtButtonPart/StopGoBtButtonPart.c:159-335 | the statements under one case label issue at most one Bluetooth command, and a label that falls through issues none |
| StopGoBtButtonPart.AtMostOneFallThrough | Demo/StopGoBtButtonPart/StopGoBtButtonPart.c:159-335 | a tick falls through at most once (PAUSE_1 into PAUSE_2 with the timer at 0, PAUSE_2 into the exchange, PAUSE_3 into EXIT), and the label it falls into breaks |
| StopGoBtButtonPart.StagesMoveForward | Demo/StopGoBtButtonPart/StopGoBtButtonPart.c:159-335 | a tick never goes back to an earlier stage, except from WAIT_REPLY to SEND_REQUEST |
| StopGoBtButtonPart.StatusCallbackRecords | Demo/StopGoBtButtonPart/StopGoBtButtonPart.c:59-66 | BtCallback stores the status and nothing else |
| StopGoBtButtonPart.ReceiveCallbackUpdates | Demo/StopGoBtButtonPart/StopGoBtButtonPart.c:76-102 | BtReceiveCallback always sets was_receive; a message for counters 1..N_CNT stores the decoded remote counter, any other message changes nothing else, and any other status is stored as the receive status |
| StopGoBtButtonPart.Pause3Counts | Demo/StopGoBtButtonPart/StopGoBtButtonPart.c:316-324 | any run of ticks in PAUSE_3 below 3000 only advances the timer by the number of ticks and keeps returning 0x7FFF |
| StopGoBtButtonPart.FailureDwellThenStop | Demo/StopGoBtButtonPart/StopGoBtButtonPart.c:316-331 | from PAUSE_3 with the timer at 0, 2999 ticks continue and the 3000th reaches EXIT and returns 0 unless the display is busy |
| StopGoBtButtonPart.RunTicksSplit | Demo/StopGoBtButtonPart/StopGoBtButtonPart.c:147-336 | running ticks a then b equals running a, then b from the state a leaves |
| StopGoBtButtonPart.ReturnsSplit | Demo/StopGoBtButtonPart/StopGoBtButtonPart.c:147-336 | the return codes of ticks a then b are those of a followed by those of b from the state a leaves |
| StopGoBtButtonPart.ButtonPart.constructor | Demo/StopGoBtButtonPart/StopGoBtButtonPart.c:43-49 | the statics start zeroed with nothing issued |
| StopGoBtButtonPart.ButtonPart.PrgInit | Demo/StopGoBtButtonPart/StopGoBtButtonPart.c:112-143 | PrgInit updates the statics as `Init` and issues the BtConnect |
| StopGoBtButtonPart.ButtonPart.BtCallback | Demo/StopGoBtButtonPart/StopGoBtButtonPart.c:59-66 | updates the statics as `OnStatus` |
| StopGoBtButtonPart.ButtonPart.BtReceiveCallback | Demo/StopGoBtButtonPart/StopGoBtButtonPart.c:76-102 | updates the statics as `OnReceive` |
| StopGoBtButtonPart.ButtonPart.PrgTic | Demo/StopGoBtButtonPart/StopGoBtButtonPart.c:147-336 | executes the fall-through switch label by label; the new statics, return code and issued calls are those of `Step` |
| StopGoBtButtonPart.ButtonPart.ExecuteCase | Demo/StopGoBtButtonPart/StopGoBtButtonPart.c:159-335 | executes the statements under one case label, as `EvalCase` |
| StopGoBtButtonPart.ButtonPart.RunFrom | Demo/StopGoBtButtonPart/StopGoBtButtonPart.c:159-335 | executes the switch from one label on, following fall-through until a break; the result is `Run` from that label |
| StopGoBtButtonPart.ButtonPart.ConnectCase | Demo/StopGoBtButtonPart/StopGoBtButtonPart.c:161-182 | CONNECT, as `EvalCase`: once the connect status is shown, start receiving or give up |
| StopGoBtButtonPart.ButtonPart.Pause1Case | Demo/StopGoBtButtonPart/StopGoBtButtonPart.c:184-193 | PAUSE_1, as `EvalCase`: count, and after 3000 ticks fall into PAUSE_2 |
| StopGoBtButtonPart.ButtonPart.Pause2Case | Demo/StopGoBtButtonPart/StopGoBtButtonPart.c:195-224 | PAUSE_2, as `EvalCase`: report the receive status, or after 3000 ticks fall into START_RECEIVE |
| StopGoBtButtonPart.ButtonPart.ExchangeCase | Demo/StopGoBtButtonPart/StopGoBtButtonPart.c:226-293 | START_RECEIVE / WAIT_REPLY, as `EvalCase`: a shown failure goes to PAUSE_3, a received reply (or the first start) sends the next request |
| StopGoBtButtonPart.ButtonPart.SendButtonRequest | Demo/StopGoBtButtonPart/StopGoBtButtonPart.c:242-290 | samples the button, shows the threshold or an edge, and issues the BtSend, as `SendNext` |
| StopGoBtButtonPart.ButtonPart.SendRequestCase | Demo/StopGoBtButtonPart/StopGoBtButtonPart.c:295-314 | SEND_REQUEST, as `EvalCase` |
| StopGoBtButtonPart.ButtonPart.Pause3Case | Demo/StopGoBtButtonPart/StopGoBtButtonPart.c:316-324 | PAUSE_3, as `EvalCase`: count, and after 3000 ticks fall into EXIT |
| StopGoBtMotorPart.ResetCounter | Demo/StopGoBtMotorPart/StopGoBtMotorPart.c:141-142 | a counter-reset request (also issued at StopGoBtMotorPart.c:286-287) clears the reset flag, bumps the reset id by one, and keeps stage, timer, duty and command status |
| StopGoBtMotorPart.Init | Demo/StopGoBtMotorPart/StopGoBtMotorPart.c:123-146 | PrgInit requests the counter reset, enters START_LISTEN with the listen command pending (status -1), keeps the duty and keeps a well-formed state well-formed |
| StopGoBtMotorPart.OnCounterReset | Demo/StopGoBtMotorPart/StopGoBtMotorPart.c:170 | the firmware's reset completion sets the flag START_LISTEN waits for, keeping the reset id, stage, timer and duty |
| StopGoBtMotorPart.InitListens | Demo/StopGoBtMotorPart/StopGoBtMotorPart.c:123-146 | PrgInit requests a counter reset (flag cleared, command id plus one), enters START_LISTEN with a pending listen command, and issues exactly one BtStartListen |
| StopGoBtMotorPart.Step | Demo/StopGoBtMotorPart/StopGoBtMotorPart.c:155-322 | a tick keeps one duty per channel and every duty within DUTY_MIN..DUTY_MAX, and returns either 0x7FFF or 0 |
| StopGoBtMotorPart.OnStatus | Demo/StopGoBtMotorPart/StopGoBtMotorPart.c:54-61 | BtCallback stores the status and leaves the stage, the timer, the command and the duties alone |
| StopGoBtMotorPart.Reply | Demo/StopGoBtMotorPart/StopGoBtMotorPart.c:101-103 | the reply is three bytes, the counter number and then the bytes that decode back to the counter's INT16 value |
| StopGoBtMotorPart.OnReceive | Demo/StopGoBtMotorPart/StopGoBtMotorPart.c:71-114 | BtReceiveCallback keeps the duties in range and never moves the stage or timer, and it sends one reply exactly for a message naming motor 1..N_MOTOR |
| StopGoBtMotorPart.StartListenWaits | Demo/StopGoBtMotorPart/StopGoBtMotorPart.c:169-189 | before the counter reset, the listen status and its display, START_LISTEN changes nothing and continues |
| StopGoBtMotorPart.StartListenReported | Demo/StopGoBtMotorPart/StopGoBtMotorPart.c:169-189 | a shown listen status goes to PAUSE_4 on failure, or to PAUSE_1 with the status pending again on success |
| StopGoBtMotorPart.WaitConnectReported | Demo/StopGoBtMotorPart/StopGoBtMotorPart.c:201-219 | a shown status in WAIT_CONNECT moves to PAUSE_2 and starts receiving exactly when it is a connect indication; otherwise only the status is reset |
| StopGoBtMotorPart.PausesDwell | Demo/StopGoBtMotorPart/StopGoBtMotorPart.c:191-231 | PAUSE_1, PAUSE_2 and PAUSE_4 only count ticks until 3000, then leave their stage in the same tick |
| StopGoBtMotorPart.Pause3Status | Demo/StopGoBtMotorPart/StopGoBtMotorPart.c:234-254 | a shown receive status restarts the dwell on success, or goes to PAUSE_4 on failure |
| StopGoBtMotorPart.Pause3Dwell | Demo/StopGoBtMotorPart/StopGoBtMotorPart.c:255-268 | without a receive status PAUSE_3 counts ticks; at 3000 with the display idle it clears the display and falls through into RECEIVE |
| StopGoBtMotorPart.Pause3FallsIntoReceiveWhileRefreshing | Demo/StopGoBtMotorPart/StopGoBtMotorPart.c:255-270 | at 3000 with the display busy the tick still runs the RECEIVE case but the stage stays PAUSE_3 |
| StopGoBtMotorPart.ReceiveStatus | Demo/StopGoBtMotorPart/StopGoBtMotorPart.c:270-300 | RECEIVE stays in RECEIVE; a failed send status stops the motor channel, requests a counter reset and resets the status; any status clears the command |
| StopGoBtMotorPart.StopOnlyInExit | Demo/StopGoBtMotorPart/StopGoBtMotorPart.c:302-322 | a tick returns 0 exactly when it ends in EXIT with the display idle, and otherwise 0x7FFF |
| StopGoBtMotorPart.StagesMoveForward | Demo/StopGoBtMotorPart/StopGoBtMotorPart.c:167-321 | a tick never goes back to an earlier stage |
| StopGoBtMotorPart.AtMostOneCommandPerTick | Demo/StopGoBtMotorPart/StopGoBtMotorPart.c:167-321 | no tick issues more than one Bluetooth command, and a tick issues one only from PAUSE_1 or WAIT_CONNECT |
| StopGoBtMotorPart.CaseCommands | Demo/StopGoBtMotorPart/StopGoBtMotorPart.c:169-320 | only WAIT_CONNECT issues an asynchronous command, at most one; the labels that fall through issue none |
| StopGoBtMotorPart.AtMostOneFallThrough | Demo/StopGoBtMotorPart/StopGoBtMotorPart.c:167-321 | a tick falls through at most once (PAUSE_1 into WAIT_CONNECT, PAUSE_2 into PAUSE_3 with the timer at 0, PAUSE_3 into RECEIVE, PAUSE_4 into EXIT), and the label it falls into breaks |
| StopGoBtMotorPart.StepKeepsDutiesInRange | Demo/StopGoBtMotorPart/StopGoBtMotorPart.c:279 | if all duties are within DUTY_MIN..DUTY_MAX, they stay so after a tick |
| StopGoBtMotorPart.EvalCase | Demo/StopGoBtMotorPart/StopGoBtMotorPart.c:169-320 | a case keeps eight duties and keeps them in range, and only the four pause cases fall through |
| StopGoBtMotorPart.Run | Demo/StopGoBtMotorPart/StopGoBtMotorPart.c:167-321 | running the switch from any label keeps eight duties and keeps them in range |
| StopGoBtMotorPart.StatusCallbackRecords | Demo/StopGoBtMotorPart/StopGoBtMotorPart.c:54-61 | BtCallback stores the status and nothing else |
| StopGoBtMotorPart.ReceiveCallbackStoresStatus | Demo/StopGoBtMotorPart/StopGoBtMotorPart.c:110-113 | a status other than a message indication is stored as the receive status, with nothing issued |
| StopGoBtMotorPart.ReceiveIgnoresUnknownMotor | Demo/StopGoBtMotorPart/StopGoBtMotorPart.c:89-90 | a message for a motor outside 1..N_MOTOR changes nothing and sends nothing |
| StopGoBtMotorPart.ReceiveAppliesDutyAndReplies | Demo/StopGoBtMotorPart/StopGoBtMotorPart.c:89-108 | a message for motor m sets channel 2(m-1) to the decoded duty and its partner to 0 when the duty is in range (otherwise no duty changes), touches no other channel, and sends exactly one reply with m and counter m |
| StopGoBtMotorPart.ReceiveKeepsDutiesInRange | Demo/StopGoBtMotorPart/StopGoBtMotorPart.c:94-98 | the receive callback never writes a duty outside DUTY_MIN..DUTY_MAX |
| StopGoBtMotorPart.Pause4Counts | Demo/StopGoBtMotorPart/StopGoBtMotorPart.c:302-310 | any run of ticks in PAUSE_4 below 3000 only advances the timer and keeps returning 0x7FFF |
| StopGoBtMotorPart.FailureDwellThenStop | Demo/StopGoBtMotorPart/StopGoBtMotorPart.c:302-317 | from PAUSE_4 with the timer at 0, 2999 ticks continue and the 3000th reaches EXIT and returns 0 unless the display is busy |
| StopGoBtMotorPart.ReceiveServesForever | Demo/StopGoBtMotorPart/StopGoBtMotorPart.c:270-300 | once in RECEIVE, every later tick stays in RECEIVE and returns 0x7FFF |
| StopGoBtMotorPart.RunTicks | Demo/StopGoBtMotorPart/StopGoBtMotorPart.c:155-322 | any run of ticks keeps eight duties |
| StopGoBtMotorPart.RunTicksSplit | Demo/StopGoBtMotorPart/StopGoBtMotorPart.c:155-322 | running ticks a then b equals running a, then b from the state a leaves |
| StopGoBtMotorPart.ReturnsSplit | Demo/StopGoBtMotorPart/StopGoBtMotorPart.c:155-322 | the return codes of ticks a then b are those of a followed by those of b from the state a leaves |
| StopGoBtMotorPart.MotorPart.constructor | Demo/StopGoBtMotorPart/StopGoBtMotorPart.c:42-45 | the statics and eight duties start zeroed with nothing issued |
| StopGoBtMotorPart.MotorPart.PrgInit | Demo/StopGoBtMotorPart/StopGoBtMotorPart.c:123-146 | updates the statics and counter-reset cells as `Init` and issues the BtStartListen |
| StopGoBtMotorPart.MotorPart.BtCallback | Demo/StopGoBtMotorPart/StopGoBtMotorPart.c:54-61 | updates the statics as `OnStatus` |
| StopGoBtMotorPart.MotorPart.CounterResetDone | Demo/StopGoBtMotorPart/StopGoBtMotorPart.c:170 | the firmware's completion of the counter reset sets the flag that START_LISTEN waits for |
| StopGoBtMotorPart.MotorPart.BtReceiveCallback | Demo/StopGoBtMotorPart/StopGoBtMotorPart.c:71-114 | writes the duty array in place and issues the reply, as `OnReceive` |
| StopGoBtMotorPart.MotorPart.PrgTic | Demo/StopGoBtMotorPart/StopGoBtMotorPart.c:155-322 | executes the fall-through switch label by label; the new state, return code and issued calls are those of `Step` |
| StopGoBtMotorPart.MotorPart.ExecuteCase | Demo/StopGoBtMotorPart/StopGoBtMotorPart.c:167-321 | executes the statements under one case label, as `EvalCase` |
| StopGoBtMotorPart.MotorPart.RunFrom | Demo/StopGoBtMotorPart/StopGoBtMotorPart.c:167-321 | executes the switch from one label on, following fall-through until a break; the result is `Run` from that label |
| StopGoBtMotorPart.MotorPart.StartListenCase | Demo/StopGoBtMotorPart/StopGoBtMotorPart.c:169-189 | START_LISTEN, as `EvalCase` |
| StopGoBtMotorPart.MotorPart.Pause1Case | Demo/StopGoBtMotorPart/StopGoBtMotorPart.c:191-199 | PAUSE_1, as `EvalCase`: count, and after 3000 ticks fall into WAIT_CONNECT |
| StopGoBtMotorPart.MotorPart.WaitConnectCase | Demo/StopGoBtMotorPart/StopGoBtMotorPart.c:201-219 | WAIT_CONNECT, as `EvalCase`: a shown connect indication starts receiving |
| StopGoBtMotorPart.MotorPart.Pause2Case | Demo/StopGoBtMotorPart/StopGoBtMotorPart.c:221-231 | PAUSE_2, as `EvalCase`: count, and after 3000 ticks fall into PAUSE_3 with the timer restarted |
| StopGoBtMotorPart.MotorPart.Pause3Case | Demo/StopGoBtMotorPart/StopGoBtMotorPart.c:233-268 | PAUSE_3, as `EvalCase`: report the receive status, or after 3000 ticks clear the display and fall into RECEIVE |
| StopGoBtMotorPart.MotorPart.ReceiveCase | Demo/StopGoBtMotorPart/StopGoBtMotorPart.c:270-300 | RECEIVE, as `EvalCase`: a failed reply send stops the motor channel in place and requests a counter reset |
| StopGoBtMotorPart.MotorPart.Pause4Case | Demo/StopGoBtMotorPart/StopGoBtMotorPart.c:302-310 | PAUSE_4, as `EvalCase`: count, and after 3000 ticks fall into EXIT |
| StopGoProtocol.RequestDrivesMotor | Demo/StopGoBtMotorPart/StopGoBtMotorPart.c:89-107 | the button side's request for a button level makes the motor side run motor 1 at DUTY_MAX exactly when the level is nonzero, keep the partner channel at 0 and the other motors unchanged, and reply with counter 1 |
| StopGoProtocol.FinalRequestStopsMotor | Demo/StopGoBtButtonPart/StopGoBtButtonPart.c:256-263 | the request sent once the threshold is reached stops motor 1 on the motor side |
| StopGoProtocol.ReplyReportsCounter | Demo/StopGoBtButtonPart/StopGoBtButtonPart.c:91-97 | the motor side's reply stores counter 1, read as INT16, as the button side's remote counter |
| StopGoProtocol.ReplyAtThresholdIsSeen | Demo/StopGoBtButtonPart/StopGoBtButtonPart.c:256 | a reply with a counter of at least 1000 (below 0x8000) makes the button side see the threshold reached |
| I2cTpa81.ReadIndex | Demo/I2cTpa81/I2cTpa81.c:141-193 | each read stage reads one of the nine registers |
| I2cTpa81.Init | Demo/I2cTpa81/I2cTpa81.c:93-103 | PrgInit restarts at INIT_1 with ticks 0 and keeps the readings, pidx and next_action |
| I2cTpa81.Step | Demo/I2cTpa81/I2cTpa81.c:112-234 | a tick keeps the state valid, counts itself modulo 2^32, returns 0x7FFF and makes at most one hook call |
| I2cTpa81.OnI2c | Demo/I2cTpa81/I2cTpa81.c:64-85 | the callback stores status and value, moves one stage on, and leaves the ticks, next_action and pidx alone |
| I2cTpa81.StepKeepsValid | Demo/I2cTpa81/I2cTpa81.c:112-234 | a tick keeps the stage within the stage list, eight pixels and a valid pixel index |
| I2cTpa81.CallbackKeepsValid | Demo/I2cTpa81/I2cTpa81.c:64-85 | the callback does the same |
| I2cTpa81.CallbackStores | Demo/I2cTpa81/I2cTpa81.c:64-85 | the callback stores status and value, puts the value's low byte into the ambient reading (index 128) or pixel p[pidx] (index below 8) or nowhere (255), and moves to the next stage |
| I2cTpa81.InitStageReads | Demo/I2cTpa81/I2cTpa81.c:132-135 | INIT_1 issues the read of register 0 and waits |
| I2cTpa81.ReadStageReads | Demo/I2cTpa81/I2cTpa81.c:141-193 | the k-th read stage issues the read of register 1+k, selects where the answer goes (ambient for k = 0, pixel k-1 otherwise) and waits |
| I2cTpa81.WaitStagesHold | Demo/I2cTpa81/I2cTpa81.c:137-139 | a waiting stage only counts the tick |
| I2cTpa81.EveryTickCountsAndContinues | Demo/I2cTpa81/I2cTpa81.c:126-229 | every tick increments ticks modulo 2^32, returns 0x7FFF and issues an I2C read exactly in INIT_1 and the read stages |
| I2cTpa81.DisplayTiming | Demo/I2cTpa81/I2cTpa81.c:207-229 | the clear sets next_action to (ticks + 20) mod 2^32, and the nine readings are shown on the first tick whose `ticks` reaches it; the show sets next_action to (ticks + 1000) mod 2^32, and the next round starts on the first tick whose `ticks` reaches that |
| I2cTpa81.DisplayTimingAtWrap | Demo/I2cTpa81/I2cTpa81.c:207-229 | because the deadlines wrap, a clear five ticks before `ticks` wraps is followed by the show on the very next tick and by the next round on the tick after that |
| I2cTpa81.ReadRoundStores | Demo/I2cTpa81/I2cTpa81.c:64-85 | from any read stage, the answers to the remaining reads land in the remaining slots in order, earlier slots are kept, and the round ends at the display |
| I2cTpa81.ReadCycleStores | Demo/I2cTpa81/I2cTpa81.c:141-193 | one read stage and its callback store the answer's low byte in that stage's slot only and move to the next read stage, or to LOOP_CLEAR_PREV_SCREEN after pixel 8 |
| I2cTpa81.FullRoundStoresAll | Demo/I2cTpa81/I2cTpa81.c:141-205 | a whole round stores the first answer as the ambient reading and the next eight as pixels 0..7 |
| I2cTpa81.Tpa81.constructor | Demo/I2cTpa81/I2cTpa81.c:50-56 | the statics start at their initial values with eight pixels |
| I2cTpa81.Tpa81.PrgInit | Demo/I2cTpa81/I2cTpa81.c:93-103 | updates the statics as `Init` |
| I2cTpa81.Tpa81.I2cCallback | Demo/I2cTpa81/I2cTpa81.c:64-85 | writes the pixel array in place, as `OnI2c` |
| I2cTpa81.Tpa81.PrgTic | Demo/I2cTpa81/I2cTpa81.c:112-234 | executes the case of the current stage; the new statics, return code and issued calls are those of `Step` |
| I2cTpa81.Tpa81.StartRead | Demo/I2cTpa81/I2cTpa81.c:141-193 | a read stage issues the read of its register, sets pidx to its slot and moves to its wait stage |
| I2cTemp.DecodeAsWrittenFields | Demo/I2cTemp/I2cTemp.c:169-181 | as written, the fraction is 5 exactly when bit 7 is set, and a negative register shows '-' with 0xFF minus the high byte as whole degrees |
| I2cTemp.DecodeAsWritten | Demo/I2cTemp/I2cTemp.c:169-181 | as written: the sign is '-' exactly when bit 15 is set and the tenths are 5 exactly when bit 7 is set |
| I2cTemp.Decode | Demo/I2cTemp/I2cTemp.c:169-181 | corrected: the sign is '-' exactly when the register is negative and the tenths are 5 exactly when bit 7 is set |
| I2cTemp.DecodeMatchesRegister | Demo/I2cTemp/I2cTemp.c:166-187 | the corrected decode shows exactly the register's temperature in half degrees, with '-' exactly for a negative register |
| I2cTemp.DecodeDiffersOnlyOnNegativeWholeDegrees | Demo/I2cTemp/I2cTemp.c:171-176 | the corrected and as-written decodes differ exactly on negative readings without a half degree |
| I2cTemp.NegativeWholeDegreesMisread | Demo/I2cTemp/I2cTemp.c:171-176 | as written, such readings are shown one degree too warm; 0xFF00 (-1.0 degrees) is shown as "-0,0" |
| I2cTemp.Command | Demo/I2cTemp/I2cTemp.c:116-152 | every issuing stage addresses the sensor at 0x4F; only LOOP_READ reads; the configuration writes before INIT_4 use a nonzero register offset, and the commands from INIT_4 on use offset 0 |
| I2cTemp.Init | Demo/I2cTemp/I2cTemp.c:73-83 | PrgInit restarts at INIT_1, whose command is the configuration write, with ticks 0, and keeps next_action and the last reading |
| I2cTemp.Step | Demo/I2cTemp/I2cTemp.c:92-198 | as written: a tick keeps the stage valid, counts itself modulo 2^32 and returns 0x7FFF |
| I2cTemp.StepCorrected | Demo/I2cTemp/I2cTemp.c:166-187 | corrected: the same tick as `Step` except that the temperature is shown with `Decode` |
| I2cTemp.OnI2c | Demo/I2cTemp/I2cTemp.c:53-65 | the callback stores status and value, moves one stage on, and leaves the ticks and next_action alone |
| I2cTemp.StepKeepsValid | Demo/I2cTemp/I2cTemp.c:92-198 | a tick keeps the stage within the stage list |
| I2cTemp.CallbackStoresAndSteps | Demo/I2cTemp/I2cTemp.c:53-65 | the callback stores status and value and moves past the waiting stage |
| I2cTemp.IssueThenWait | Demo/I2cTemp/I2cTemp.c:115-158 | an issuing stage sends its one I2C command to address 0x4F and then waits; a waiting stage only counts the tick |
| I2cTemp.EveryTickCountsAndContinues | Demo/I2cTemp/I2cTemp.c:109-194 | every tick increments ticks modulo 2^32, returns 0x7FFF and issues an I2C command exactly in the issuing stages |
| I2cTemp.LoopNeverReturnsToInit | Demo/I2cTemp/I2cTemp.c:142-194 | once in the measuring loop the program never repeats the configuration, and its only write is the read-temperature command (0xAA) |
| I2cTemp.DisplayTiming | Demo/I2cTemp/I2cTemp.c:160-194 | the clear sets next_action to (ticks + 20) mod 2^32, and the temperature is shown on the first tick whose `ticks` reaches it; the show sets next_action to (ticks + 1000) mod 2^32, and the next measurement starts on the first tick whose `ticks` reaches that |
| I2cTemp.DisplayTimingAtWrap | Demo/I2cTemp/I2cTemp.c:160-194 | because the deadlines wrap, a clear five ticks before `ticks` wraps is followed by the show on the very next tick and by the next measurement on the tick after that |
| I2cTemp.ShownTemperatureAsWritten | Demo/I2cTemp/I2cTemp.c:166-187 | as written, the message shows '-' exactly for bit 15 and tenths 5 exactly for bit 7, and its value is the register's in half degrees, except one degree too warm for a negative whole-degree reading |
| I2cTemp.ShownTemperatureIsRegister | Demo/I2cTemp/I2cTemp.c:166-187 | corrected: with `StepCorrected`, the temperature shown is the register's, to the half degree |
| I2cTemp.Measurement | Demo/I2cTemp/I2cTemp.c:142-158 | a measurement writes the read-temperature command (0xAA), then reads the temperature register, and leaves the answer in value ready for display |
| I2cTemp.Ds1631.constructor | Demo/I2cTemp/I2cTemp.c:42-45 | the statics start at their initial values |
| I2cTemp.Ds1631.PrgInit | Demo/I2cTemp/I2cTemp.c:73-83 | updates the statics as `Init` |
| I2cTemp.Ds1631.I2cCallback | Demo/I2cTemp/I2cTemp.c:53-65 | updates the statics as `OnI2c` |
| I2cTemp.Ds1631.PrgTic | Demo/I2cTemp/I2cTemp.c:92-198 | executes the case of the current stage as written, including `~temp` on the unsigned high byte, as `Step` |
| LightRun.Lamp | Demo/LightRun/LightRun.c:77-155 | a lamp step keeps six lamps with at most the current one on, and a `continue` restarts timing in the same stage |
| LightRun.Pass | Demo/LightRun/LightRun.c:75-177 | one pass of the loop keeps at most one lamp on, and a `continue` strictly lowers the measure that bounds the loop |
| LightRun.Run | Demo/LightRun/LightRun.c:73-178 | the loop always returns, keeping at most one lamp on |
| LightRun.Step | Demo/LightRun/LightRun.c:58-180 | a tick ends in a return, keeps the lamp index in O1..O6, and keeps every lamp but the current one off |
| LightRun.Init | Demo/LightRun/LightRun.c:38-49 | PrgInit enters ON_1 with the time base at 0 and leaves the lamps alone; with the six-lamp output array it yields a valid state inside the round invariant (1 to 3 rounds left, with the wait matching the round) |
| LightRun.InitSetsUp | Demo/LightRun/LightRun.c:38-49 | PrgInit starts round 1 of 3 at lamp 0 in ON_1 with a 200 ms wait |
| LightRun.ZeroLampsOff | Demo/LightRun/LightRun.c:38-49 | starting from zeroed outputs no lamp other than the current one is on |
| LightRun.StepKeepsLampsInvariant | Demo/LightRun/LightRun.c:58-180 | every tick keeps every lamp other than the current one off |
| LightRun.OthersOffMeansAtMostOne | Demo/LightRun/LightRun.c:58-180 | so at most one of the six lamps is on |
| LightRun.On1Walks | Demo/LightRun/LightRun.c:77-109 | once the wait has elapsed, ON_1 switches the current lamp off and the next one on, or enters PAUSE_1 after the last lamp |
| LightRun.On2Walks | Demo/LightRun/LightRun.c:123-155 | the same walking back down, entering PAUSE_2 after lamp 0 |
| LightRun.LampHolds | Demo/LightRun/LightRun.c:84-108 | before the wait has elapsed a lamp stage only records the time |
| LightRun.Pause1Ends | Demo/LightRun/LightRun.c:111-121 | PAUSE_1 ends after the wait by switching the top lamp on in ON_2 |
| LightRun.Pause2Ends | Demo/LightRun/LightRun.c:157-173 | after one second PAUSE_2 counts a round down and stops after the last one, otherwise starts the next round with half the wait |
| LightRun.RoundsCountDown | Demo/LightRun/LightRun.c:58-180 | the round count only decreases in PAUSE_2, and the tick returns 0 exactly when it reaches 0 there |
| LightRun.LightRun.constructor | Demo/LightRun/LightRun.c:24-29 | the statics and lamps start zeroed |
| LightRun.LightRun.PrgInit | Demo/LightRun/LightRun.c:38-49 | updates the statics as `Init` |
| LightRun.LightRun.PrgTic | Demo/LightRun/LightRun.c:58-180 | runs the `while (1)` loop with `continue`, writing the lamps in place; the result is `Step` |
| LightRun.LightRun.PassOnce | Demo/LightRun/LightRun.c:75-177 | one pass through the switch, as `Pass`: a return or a `continue` |
| LightRun.LightRun.On1Case | Demo/LightRun/LightRun.c:77-109 | ON_1 writes the current lamp in place, as `Lamp` upwards |
| LightRun.LightRun.Pause1Case | Demo/LightRun/LightRun.c:111-121 | PAUSE_1 falls into ON_2 after the wait, as `Pass` |
| LightRun.LightRun.On2Case | Demo/LightRun/LightRun.c:123-155 | ON_2 writes the current lamp in place, as `Lamp` downwards |
| LightRun.LightRun.Pause2Case | Demo/LightRun/LightRun.c:157-173 | PAUSE_2 ends a round after one second, as `Pass` |
| MotorRun.Drive | Demo/MotorRun/MotorRun.c:85-86 | sets motor M1's two channels and changes no other channel and no static |
| MotorRun.CaseOff | Demo/MotorRun/MotorRun.c:147-153 | OFF sets both channels of M1 to 0, changes nothing else, and returns 0 |
| MotorRun.CaseDirection2 | Demo/MotorRun/MotorRun.c:122-145 | DIRECTION_2 never drives both directions at once |
| MotorRun.CasePause | Demo/MotorRun/MotorRun.c:105-120 | PAUSE never drives both directions at once |
| MotorRun.CaseDirection1 | Demo/MotorRun/MotorRun.c:80-103 | DIRECTION_1 never drives both directions at once |
| MotorRun.Pass | Demo/MotorRun/MotorRun.c:78-157 | one pass never drives both directions, and a `continue` strictly lowers the loop's measure |
| MotorRun.Run | Demo/MotorRun/MotorRun.c:76-158 | the loop always returns, never driving both directions |
| MotorRun.Step | Demo/MotorRun/MotorRun.c:64-160 | a tick ends in a return and never drives M1 in both directions at once |
| MotorRun.Init | Demo/MotorRun/MotorRun.c:34-55 | PrgInit leaves M1 undriven in at least one direction, at DIRECTION_1 with timer and duty 0 |
| MotorRun.InitStopsMotor | Demo/MotorRun/MotorRun.c:34-55 | PrgInit stops the motor, zeroes timer and duty, starts in DIRECTION_1 and touches no other output |
| MotorRun.Direction1StepStarts | Demo/MotorRun/MotorRun.c:82-87 | the first tick of a DIRECTION_1 step raises the duty by DUTY_MAX/4 and drives channel 0 |
| MotorRun.Direction1Steps | Demo/MotorRun/MotorRun.c:80-103 | DIRECTION_1 holds each duty for 2000 ticks, then raises it, or enters PAUSE once at DUTY_MAX |
| MotorRun.PauseHolds | Demo/MotorRun/MotorRun.c:105-120 | PAUSE stops the motor for 2000 ticks, then drives channel 1 in DIRECTION_2 |
| MotorRun.Direction2Steps | Demo/MotorRun/MotorRun.c:122-145 | DIRECTION_2 holds each duty for 2000 ticks, then lowers it, and stops the motor and returns 0 once it reaches 0 |
| MotorRun.OffStops | Demo/MotorRun/MotorRun.c:147-153 | OFF stops the motor and returns 0 |
| MotorRun.StagesMoveForward | Demo/MotorRun/MotorRun.c:64-160 | stages only move forward, the tick returns 0 exactly in OFF, and the motor never turns both ways |
| MotorRun.MotorRun.constructor | Demo/MotorRun/MotorRun.c:23-25 | the statics and outputs start zeroed |
| MotorRun.MotorRun.PrgInit | Demo/MotorRun/MotorRun.c:34-55 | writes the outputs in place, as `Init` |
| MotorRun.MotorRun.PrgTic | Demo/MotorRun/MotorRun.c:64-160 | runs the `while (1)` loop with `continue`, writing the outputs in place; the result is `Step` |
| MotorRun.MotorRun.PassOnce | Demo/MotorRun/MotorRun.c:78-157 | one pass through the switch, as `Pass`: a return or a `continue` |
| MotorRun.MotorRun.Direction1Case | Demo/MotorRun/MotorRun.c:80-103 | DIRECTION_1 in place, as `CaseDirection1`, falling into PAUSE at DUTY_MAX |
| MotorRun.MotorRun.PauseCase | Demo/MotorRun/MotorRun.c:105-120 | PAUSE in place, as `CasePause`, falling into DIRECTION_2 |
| MotorRun.MotorRun.Direction2Case | Demo/MotorRun/MotorRun.c:122-145 | DIRECTION_2 in place, as `CaseDirection2`, falling into OFF once the duty is no longer positive |
| MotorRun.MotorRun.OffCase | Demo/MotorRun/MotorRun.c:147-153 | OFF in place, as `CaseOff` |
| StopGo.Init | Demo/StopGo/StopGo.c:55-62 | PrgInit clears the counter-reset flag, bumps the reset command id by one, makes the remembered button level nonzero and leaves the duty alone |
| StopGo.OnCounterReset | Demo/StopGo/StopGo.c:85 | the firmware's reset completion sets the flag the tick waits for and keeps the reset id, the remembered level and the duty |
| StopGo.EdgeDisplay | Demo/StopGo/StopGo.c:87-106 | at most one display call, and none exactly when the level is unchanged; the prompt exactly on a release (nonzero to 0), a clear exactly on any other change |
| StopGo.InitRequestsReset | Demo/StopGo/StopGo.c:55-62 | PrgInit requests a reset of counter C1 and pretends the button was pressed, leaving the outputs alone |
| StopGo.Step | Demo/StopGo/StopGo.c:72-123 | a tick returns 0x7FFF or 0, writes no output but channel 0 of M1, and leaves the counter-reset bookkeeping alone |
| StopGo.NothingBeforeReset | Demo/StopGo/StopGo.c:85 | until the counter has been reset a tick writes nothing, shows nothing and continues |
| StopGo.PrevTracksLevel | Demo/StopGo/StopGo.c:87-106 | the remembered level changes only to the level read, and only when the display is idle after the reset |
| StopGo.ButtonDrivesMotor | Demo/StopGo/StopGo.c:87-109 | a release shows the prompt, a press clears the display, a steady level shows nothing; duty is DUTY_MAX exactly when the level is nonzero and 0 exactly when it is zero; no other channel changes |
| StopGo.BusyDisplaySkipsButton | Demo/StopGo/StopGo.c:87 | while the display is busy the button is not read and no output changes |
| StopGo.StopsAtThreshold | Demo/StopGo/StopGo.c:111-122 | the tick returns 0 exactly when the counter was reset, has reached 1000 and the display is idle, showing the message last |
| StopGo.StopGo.constructor | Demo/StopGo/StopGo.c:28 | the static and outputs start zeroed |
| StopGo.StopGo.PrgInit | Demo/StopGo/StopGo.c:38-63 | updates the static and counter-reset cells as `Init` |
| StopGo.StopGo.CounterResetDone | Demo/StopGo/StopGo.c:85 | the firmware's completion of the counter reset sets the flag the tick waits for |
| StopGo.StopGo.PrgTic | Demo/StopGo/StopGo.c:72-123 | writes the duty in place and issues the display calls, as `Step` |
| MotorExExt1.Init | Demo/MotorEx_Ext1/MotorEx_Ext1.c:35-51 | PrgInit makes the wanted direction differ from the last commanded one and writes no output, flag or command id |
| MotorExExt1.OnPositionReached | Demo/MotorEx_Ext1/MotorEx_Ext1.c:89 | the firmware's report sets M1's position flag only, and keeps the directions, outputs and command ids |
| MotorExExt1.StepKeepsValid | Demo/MotorEx_Ext1/MotorEx_Ext1.c:60-95 | a tick keeps the sizes of the output arrays |
| MotorExExt1.Issue | Demo/MotorEx_Ext1/MotorEx_Ext1.c:72-87 | a command drives M1 at full duty in exactly the wanted direction, over 200 steps, clears the reached flag, bumps M1's command id only, and records the direction as commanded |
| MotorExExt1.Step | Demo/MotorEx_Ext1/MotorEx_Ext1.c:60-95 | a tick bumps M1's command id exactly when the wanted direction differs from the last command's, and leaves them different only once the position is reached |
| MotorExExt1.FirstTickIssues | Demo/MotorEx_Ext1/MotorEx_Ext1.c:49-50 | the first tick after PrgInit always issues a command, backwards |
| MotorExExt1.ChangeIssuesCommand | Demo/MotorEx_Ext1/MotorEx_Ext1.c:72-87 | on a direction change exactly one motor channel is at DUTY_MAX and the other at 0, the distance is 200, the position flag is cleared, the command id rises by exactly 1, the direction is remembered, and nothing else changes |
| MotorExExt1.NoChangeWritesNothing | Demo/MotorEx_Ext1/MotorEx_Ext1.c:72 | without a direction change no output is written |
| MotorExExt1.FlipsOnlyWhenReached | Demo/MotorEx_Ext1/MotorEx_Ext1.c:89-92 | the wanted direction flips exactly when the position flag is set and no command was issued in that tick |
| MotorExExt1.ReachedReverses | Demo/MotorEx_Ext1/MotorEx_Ext1.c:72-92 | after a command the program idles until the position is reported, then reverses and issues the opposite command with the next id |
| MotorExExt1.MotorExExt1.constructor | Demo/MotorEx_Ext1/MotorEx_Ext1.c:25-26 | the statics and outputs start zeroed |
| MotorExExt1.MotorExExt1.PrgInit | Demo/MotorEx_Ext1/MotorEx_Ext1.c:35-51 | updates the statics as `Init` |
| MotorExExt1.MotorExExt1.PositionReached | Demo/MotorEx_Ext1/MotorEx_Ext1.c:89 | the firmware sets the position flag the tick tests |
| MotorExExt1.MotorExExt1.PrgTic | Demo/MotorEx_Ext1/MotorEx_Ext1.c:60-95 | writes the output arrays in place as `Step` and returns 0x7FFF |
| MotorEx2MMaster.Init | Demo/MotorEx_2M_Master/MotorEx_2M_Master.c:37-56 | PrgInit makes the wanted direction differ from the last commanded one and writes no output, link, flag or command id |
| MotorEx2MMaster.OnPositionReached | Demo/MotorEx_2M_Master/MotorEx_2M_Master.c:108 | one motor's report sets that motor's position flag only, and keeps the directions, outputs, link and command ids |
| MotorEx2MMaster.StepKeepsValid | Demo/MotorEx_2M_Master/MotorEx_2M_Master.c:65-114 | a tick keeps the sizes of the output arrays |
| MotorEx2MMaster.Issue | Demo/MotorEx_2M_Master/MotorEx_2M_Master.c:77-106 | the command pair drives M1 at full duty in exactly the wanted direction and M2 identically, 200 steps each, with M2 linked to M1, both reached flags cleared and both command ids bumped |
| MotorEx2MMaster.Step | Demo/MotorEx_2M_Master/MotorEx_2M_Master.c:65-114 | a tick bumps M1's command id exactly when the wanted direction differs from the last command's, and leaves them different only once both motors have reached their position |
| MotorEx2MMaster.FirstTickIssues | Demo/MotorEx_2M_Master/MotorEx_2M_Master.c:54-55 | the first tick after PrgInit always issues commands to both motors, backwards |
| MotorEx2MMaster.ChangeIssuesCommands | Demo/MotorEx_2M_Master/MotorEx_2M_Master.c:77-106 | on a direction change both motors get the same duty pair with exactly one channel at DUTY_MAX, both distances 200, the slave linked to motor 1, both flags cleared, both ids up by exactly 1, and nothing else changes |
| MotorEx2MMaster.NoChangeWritesNothing | Demo/MotorEx_2M_Master/MotorEx_2M_Master.c:77 | without a direction change no output is written |
| MotorEx2MMaster.FlipsOnlyWhenBothReached | Demo/MotorEx_2M_Master/MotorEx_2M_Master.c:108-111 | the wanted direction flips exactly when both motors report their position and no command was issued in that tick |
| MotorEx2MMaster.WaitsForBoth | Demo/MotorEx_2M_Master/MotorEx_2M_Master.c:77-111 | one motor's report alone changes nothing; after both, the program reverses and issues the opposite commands with the next ids |
| MotorEx2MMaster.MotorEx2MMaster.constructor | Demo/MotorEx_2M_Master/MotorEx_2M_Master.c:27-28 | the statics and outputs start zeroed |
| MotorEx2MMaster.MotorEx2MMaster.PrgInit | Demo/MotorEx_2M_Master/MotorEx_2M_Master.c:37-56 | updates the statics as `Init` |
| MotorEx2MMaster.MotorEx2MMaster.PositionReached | Demo/MotorEx_2M_Master/MotorEx_2M_Master.c:108 | the firmware sets one motor's position flag |
| MotorEx2MMaster.MotorEx2MMaster.PrgTic | Demo/MotorEx_2M_Master/MotorEx_2M_Master.c:65-114 | writes the output arrays in place as `Step` and returns 0x7FFF |
| MotorEx2MMaster.MotorEx2MMaster.IssueCommands | Demo/MotorEx_2M_Master/MotorEx_2M_Master.c:77-106 | the writes of one linked command pair, as `Issue` |
| MotorEx2MMaster.MotorEx2MMaster.SetDuties | Demo/MotorEx_2M_Master/MotorEx_2M_Master.c:79-85 | both motors' channel pairs get the forward and backward duty of the direction |
| MotorEx2MMaster.MotorEx2MMaster.SetTargets | Demo/MotorEx_2M_Master/MotorEx_2M_Master.c:87-94 | both distances become 200 and the slave is linked to motor 1 |
| WarningLight.FlashInterval | Demo/WarningLight/WarningLight.c:123-126 | the interval is between 0 and 75 (units of 10 ms) |
| WarningLight.DueAsWritten | Demo/WarningLight/WarningLight.c:53 | as written: with no interval and no wrap the test passes, and once cmp_val plus the interval exceeds 32767 it never passes |
| WarningLight.Due | Demo/WarningLight/WarningLight.c:53 | corrected: with no interval the test passes, and at the very reading of the last switch a positive interval has not elapsed |
| WarningLight.Flashed | Demo/WarningLight/WarningLight.c:36-65 | SetFlashLight keeps one duty per channel and returns cmp_val exactly when an interval is set and has not elapsed, the timer otherwise |
| WarningLight.StepAsWritten | Demo/WarningLight/WarningLight.c:101-132 | as written: a tick either changes nothing or moves cmp_val to the timer reading |
| WarningLight.Step | Demo/WarningLight/WarningLight.c:101-132 | corrected: a tick either changes nothing or moves cmp_val to the timer reading |
| WarningLight.Init | Demo/WarningLight/WarningLight.c:88-91 | PrgInit takes the lamp as off and starts cmp_val at the timer reading, without writing the output |
| WarningLight.FlashIntervalBands | Demo/WarningLight/WarningLight.c:123-126 | no flashing beyond 20, then 750 ms over (15, 20], 500 ms over (10, 15], 250 ms over (5, 10], 100 ms at 5 and below, each in both directions |
| WarningLight.FlashIntervalMonotone | Demo/WarningLight/WarningLight.c:123-126 | within 20, a closer obstacle never gives a longer interval |
| WarningLight.FlashedCases | Demo/WarningLight/WarningLight.c:44-64 | no interval switches the lamp off and returns the timer; an interval not yet elapsed changes nothing and returns cmp_val; an elapsed interval toggles the lamp, sets its output to match and returns the timer; no other output changes |
| WarningLight.InitLampMatches | Demo/WarningLight/WarningLight.c:88-91 | PrgInit on a lamp that is off leaves the lamp state and output in agreement, with cmp_val at the timer reading |
| WarningLight.StepKeepsLampMatching | Demo/WarningLight/WarningLight.c:44-64 | every tick keeps the lamp output equal to LIGHT_ON exactly when is_light_on |
| WarningLight.FarMeansOff | Demo/WarningLight/WarningLight.c:44-51 | beyond 20 the lamp is off after the tick and cmp_val follows the timer, as written and corrected |
| WarningLight.AsWrittenAgreesWithoutWrap | Demo/WarningLight/WarningLight.c:53 | while the timer has not wrapped since cmp_val, the program's test and the wrap-safe test agree |
| WarningLight.AsWrittenFreezes | Demo/WarningLight/WarningLight.c:53-56 | as written, once cmp_val plus the interval exceeds 32767 no timer reading switches the lamp |
| WarningLight.AsWrittenMissesSwitch | Demo/WarningLight/WarningLight.c:53-56 | with cmp_val 32700 and distance 18, the reading 75 units later (-32761) switches the lamp only under the corrected test |
| WarningLight.DueAfterElapsed | Demo/WarningLight/WarningLight.c:53 | the corrected test fires exactly when at least the interval has elapsed, across a timer wrap |
| WarningLight.WarningLight.constructor | Demo/WarningLight/WarningLight.c:26-27 | the statics and outputs start zeroed |
| WarningLight.WarningLight.PrgInit | Demo/WarningLight/WarningLight.c:74-92 | updates the statics as `Init` |
| WarningLight.WarningLight.SetFlashLight | Demo/WarningLight/WarningLight.c:36-65 | writes the lamp in place and returns the new compare value, as `Flashed` with the program's test `DueAsWritten` |
| WarningLight.WarningLight.PrgTic | Demo/WarningLight/WarningLight.c:101-132 | maps the distance to an interval and updates cmp_val through SetFlashLight, as `StepAsWritten`; returns 0x7FFF |

## Left out

- Text on the display: the strings built with `sprintf` and shown with `DisplayMsg` are recorded only as `DisplayMsg(<kind of message>)` or `DisplayClear` events.
- Hardware configuration: the `config.*` writes and `config_id += 1` in every `PrgInit` configure the firmware and do nothing the model could observe.
- `BtDisplayCommandStatus` and `IsDisplayBeingRefreshed` are not part of this model. Their answers are tick inputs. StopGo.c asks `IsDisplayBeingRefreshed` twice per tick, so it has two such inputs.
- The firmware header (`ROBO_TX_PRG.h`) is not part of this model. Its constants have assumed values in `Robo`:
  - DUTY_MAX 512, DUTY_MIN 0;
  - N_MOTOR and N_CNT 4;
  - 8 PWM channels;
  - BT_SUCCESS 0, BT_CON_INDICATION 11, BT_MSG_INDICATION 13.
  The proofs do not depend on these exact values, only on these relations:
  - DUTY_MIN <= 0 < DUTY_MAX;
  - 2 <= N_MOTOR <= N_CNT, since MotorEx_2M_Master drives motors 0 and 1;
  - 2 * N_MOTOR <= N_PWM_CHAN, two PWM channels per motor;
  - 8 <= N_PWM_CHAN, since WarningLight's lamp is channel 7 and LightRun's six lamps are channels 0 to 5;
  - the three Bluetooth codes are distinct and non-negative.

  `bt_address_table` appears only as the peer index.
- Byte order: the `memcpy` of an INT16 into two message bytes is modelled as two's complement, low byte first.
- Real time: the 1 ms tick rate is not modelled. `GetSystemTime` (LightRun) and `Timer10ms` (WarningLight) are tick inputs. `Timer10ms` arrives as the INT16 the program reads it into, so its own type and the conversion are not modelled.
- Callback delivery: callbacks are separate methods called between ticks, never during one. The I2C callbacks require an outstanding command (a waiting stage). In the source a stray callback would advance `stage` once more, so the next command is skipped: from `INIT_2`, say, the TH write is skipped and the program waits in `WAIT_2` for good. From the last stage it leaves the enumeration, after which every tick spins in the `while (1)` loop without returning.
- Short Bluetooth messages: `BtReceiveCallback` in both Bluetooth programs reads three bytes of a message (Demo/StopGoBtButtonPart/StopGoBtButtonPart.c:92-96, Demo/StopGoBtMotorPart/StopGoBtMotorPart.c:89-93) without checking its length. The model requires a message indication to carry at least three bytes, so a shorter message, which the C would read past, is excluded. Other statuses may come with any message, since the C does not read it then.
- Command and reset ids (`motor_ex_cmd_id`, `cnt_reset_cmd_id`) are unbounded naturals, so their wrap-around is not modelled.
- The firmware side of the transfer area is modelled only as far as the programs read it:
  - counters and the button level are tick or callback inputs;
  - `cnt_resetted` and `motor_pos_reached` are set by firmware methods (`CounterResetDone`, `PositionReached`).
- The commented-out block in Demo/StopGoBtMotorPart/StopGoBtMotorPart.c:288-296 is dead code.
- Multi-tick lemmas (`RunTicks`, `Returns`) cover sequences of ticks only, not callbacks interleaved with them.
- A `stage` value outside the enumerations (the C `default:` labels) cannot arise in the model, because the stage types hold only the listed stages.

## Findings

| source | as written | input that shows it | evidently intended | confidence | as-written member | corrected member |
|---|---|---|---|---|---|---|
| Demo/I2cTemp/I2cTemp.c:171-176 | a negative reading is shown as '-' with `0xFF - (value >> 8)` whole degrees, the ones' complement of the high byte | register 0xFF00 (-1.0 degrees) is shown as "-0,0"; every negative whole-degree reading is shown one degree too warm | the magnitude of the two's complement reading, `0x100 - (value >> 8)` when there is no half degree | not executed | I2cTemp.DecodeAsWritten / I2cTemp.NegativeWholeDegreesMisread / I2cTemp.ShownTemperatureAsWritten | I2cTemp.Decode / I2cTemp.DecodeMatchesRegister / I2cTemp.ShownTemperatureIsRegister |
| Demo/WarningLight/WarningLight.c:53 | the interval test `cmp_val + tm_diff > tm_val` compares INT16 timer readings without allowing for wrap-around | last switch at reading 32700, distance 18 (interval 75): no later reading exceeds 32775, so the lamp never switches again while the distance stays in that band | switch once the time elapsed modulo 2^16, `(tm_val - cmp_val)` as 16-bit unsigned, reaches the interval | not executed | WarningLight.StepAsWritten / WarningLight.AsWrittenFreezes | WarningLight.Step / WarningLight.DueAfterElapsed |

# Driveway gate controller: a Dafny model of its tick logic

This project models the per-tick decision logic of a driveway gate
controller that runs on a Raspberry Pi. Once a second the controller does
five things in order:

1. It looks up the wanted side (`desired_state`) from the primary gate mode
   and the local hour.
2. It checks the emergency-stop input. If that input reads 0, it stops the
   H-bridge, turns the lights off and skips the rest of the tick.
3. It retargets: an approved Bluetooth device, or otherwise `desired_state`,
   moves the gate into the wait state of the requested side.
4. It advances a wait state or a moving state once that state's dwell time
   has strictly passed.
5. It drives the LEDs and the H-bridge for the state the gate is now in.

The gate has six states: WaitBeforeOpen, Opening, Opened, WaitBeforeClose,
Closing and Closed. The model is in four modules:

- `Gpio` (gpio.dfy) covers the output pins. A `Write` is one `io.output`
  call. `PinLevels` holds the level each pin currently has. `HBridgeWrites`
  gives the pin pattern of `SetHBridgeDirection`, and `RedLight` and
  `GreenLight` give the writes of the LED setters. `MotorDirection` reads the
  direction the H-bridge selects from its two pin levels, and `Stopped` says
  they hold the stop pattern (both high) that `SetHBridgeDirection(0)` writes.
- `GateLogic` (gate_logic.dfy) is the specification, written as functions.
  One function covers each phase of a tick (`ResolveDesired`, `Retarget`,
  `Advance`, `StateOutputs`, `EstopWrites`), and `Step` covers a whole tick.
  The module also holds the motor invariant and the lemmas proving that every
  tick keeps it. The invariant comes in two strengths. `MotorSafe` demands the
  stop pattern except while moving. `DirectionSafe` also admits both H-bridge
  pins low, as set-up may leave them.
- `GateRuns` (gate_runs.dfy) holds lemmas about one or more ticks: the motor
  invariant over any run, the freeze during an emergency stop, progress
  toward the requested side, idempotent retargeting, and the opening and
  closing sequences.
- `GateControl` (gate_controller.dfy) holds the class `GateController`. It
  is the loop as the program runs it. Its fields are the loop's variables
  `current_state`, `desired_state` and `nStateChanged_ts`, plus the pin
  levels. Its methods follow the source's `if` blocks one for one, and
  `Tick` is proved to do exactly what `Step` specifies.

Inputs of a tick (`TickInput`):

- `now` is the tick's `time.time()` reading. Time is a `real`, in seconds.
- `stamp` is the `time.time()` read again when a retarget records its
  timestamp.
- `hour` is the local hour.
- `mode` is the primary gate mode string.
- `credential` says whether some approved address answered a Bluetooth name
  lookup.
- `estop` is the level of the emergency-stop input.
- `flash` is the outcome of the LED blink test in the wait states.

Behaviour of the code worth knowing, which the model keeps as written:

- There is no `Unknown` state, no test mode and no force-open input. Start-up
  is WaitBeforeOpen with `desired_state` Opened.
- An unrecognised mode string does not fall back to Opened. It leaves
  `desired_state` as it was. Since the start-up value is Opened, the gate
  still fails open until a recognised mode has been seen.
- Timed advances need the elapsed time to be strictly greater than the dwell
  time.
- Opened and Closed re-issue "H-bridge off, lights off" on every tick while
  their timestamp is less than one second before `now`, not exactly once.
- The wait states stop the motor only as a retarget enters them. Their output
  step never touches the H-bridge. The start-up wait is the exception: it is
  entered without any H-bridge write.
- `SetGreenLightOn` and `SetGreenLightOff` write the red LED's pin, so the
  green pin is never driven (`GreenLight`, and `Step`'s contract).
- "Closed at Night" compares the hour with the opening hour (8) only. The
  closing hour (21) is configured but never read.
- An approved device retargets the gate to WaitBeforeOpen and stops the
  H-bridge even in "Always Closed" mode. As written, the program then ends at
  line 182 (see "Left out").

## Model

| member | source | states |
|---|---|---|
| `Gpio.HBridgeWrites` | pi_py_bt_gate_control.py:37-47 | The H-bridge command writes pin 17 and then pin 27. After those writes the motor direction equals the sign of the argument, and the pins hold the stop pattern exactly when the argument is 0. The pattern is never both pins low, and it leaves the LED pins alone. |
| `Gpio.HBridgePatternsDistinct` | pi_py_bt_gate_control.py:37-47 | Two commands issue the same pin pattern exactly when their arguments have the same sign. So stop, close and open each have their own pattern. |
| `Gpio.MotorDirection` | pi_py_bt_gate_control.py:37-47 | The pin levels select +1 exactly for (0,1) and -1 exactly for (1,0); equal levels select neither direction. |
| `Gpio.RedLight` | pi_py_bt_gate_control.py:27-30 | The red setters change only the red pin, to 1 for on and 0 for off. They leave the H-bridge and the green pin alone. |
| `Gpio.GreenLight` | pi_py_bt_gate_control.py:32-35 | The green setters issue exactly the red setters' write. They never address the green pin. |
| `Gpio.LatchAllAppend` | pi_py_bt_gate_control.py:37-47 | Issuing two batches of writes one after the other leaves the same pin levels as issuing them as one batch. |
| `GateLogic.ResolveDesired` | pi_py_bt_gate_control.py:122-131 | "Closed at Night" gives Opened exactly when the hour is at least 8. "Always Closed" gives Closed and "Always Open" gives Opened. Any other mode keeps the previous value. |
| `GateLogic.ResolveDesiredIdempotent` | pi_py_bt_gate_control.py:122-131 | Resolving again with the same mode and hour changes nothing. |
| `GateLogic.ResolveDesiredIgnoresPrevious` | pi_py_bt_gate_control.py:122-131 | The previous `desired_state` can change the result only when the mode is not one of the three recognised strings. |
| `GateLogic.Retarget` | pi_py_bt_gate_control.py:160-182 | After the phase the gate is always on the requested side. The state changes exactly when it was not already on that side. A change enters that side's wait state, records the fresh timestamp and stops the H-bridge. No change means nothing is written. With a device present, the gate enters WaitBeforeOpen exactly when it is not in WaitBeforeOpen, Opening or Opened, whatever the mode. |
| `GateLogic.RetargetIdempotent` | pi_py_bt_gate_control.py:160-182 | A second retarget with the same request writes nothing and changes nothing. |
| `GateLogic.Advance` | pi_py_bt_gate_control.py:189-213 | A state advances exactly when it is a wait or moving state and its timestamp is strictly more than the dwell time (5, 40, 10 or 40 s) before `now`. It then moves to its successor and records `now`. Leaving Opening or Closing stops the H-bridge. Otherwise nothing changes. |
| `GateLogic.AdvanceOncePerTick` | pi_py_bt_gate_control.py:189-213 | Running the advance check again at the same `now` fires nothing. So the four sequential checks advance the gate at most once per tick. |
| `GateLogic.AdvanceKeepsSide` | pi_py_bt_gate_control.py:189-213 | Advancing never moves the gate from the open side to the closed side or back. |
| `GateLogic.StateOutputs` | pi_py_bt_gate_control.py:218-256 | The output step never writes the green pin. It touches the H-bridge exactly in Opening, in Closing, and in Opened or Closed while the timestamp is less than 1 s before `now`. Opening drives direction -1 and Closing drives +1, and both leave the red pin high. Within that second, Opened and Closed write the stop pattern and turn the red pin low; after it they write nothing. The wait states set only the red pin, to the blink phase. |
| `GateLogic.EstopWrites` | pi_py_bt_gate_control.py:150-155 | The emergency-stop writes leave the motor stopped and the red pin low, and they never address the green pin. |
| `GateLogic.Step` | pi_py_bt_gate_control.py:117-257 | A tick always recomputes `desired_state`, and the pins end as its writes leave them. The green pin is never written. When the emergency stop reads 0, the state and timestamp are unchanged, the writes are the e-stop writes, the motor is stopped and the red pin is low. |
| `GateLogic.RetargetKeepsMotorSafe` | pi_py_bt_gate_control.py:160-182 | The retarget phase keeps the motor invariant: the H-bridge holds the stop pattern, except that it may drive -1 in Opening and +1 in Closing. |
| `GateLogic.AdvanceKeepsMotorSafe` | pi_py_bt_gate_control.py:189-213 | The advance phase keeps the motor invariant. |
| `GateLogic.OutputsKeepMotorSafe` | pi_py_bt_gate_control.py:218-256 | The output phase keeps the motor invariant. |
| `GateLogic.StepKeepsMotorSafe` | pi_py_bt_gate_control.py:150-256 | Every tick keeps the motor invariant. |
| `GateLogic.MotorSafeIsDirectionSafeNotBothLow` | pi_py_bt_gate_control.py:37-47 | The strong invariant holds exactly when the weak one holds and the H-bridge pins are not both low. |
| `GateLogic.RetargetKeepsDirectionSafe` | pi_py_bt_gate_control.py:160-182 | The retarget phase keeps the weak invariant: the H-bridge selects a direction only in Opening (-1) or Closing (+1). |
| `GateLogic.AdvanceKeepsDirectionSafe` | pi_py_bt_gate_control.py:189-213 | The advance phase keeps the weak invariant. |
| `GateLogic.OutputsKeepDirectionSafe` | pi_py_bt_gate_control.py:218-256 | The output phase keeps the weak invariant. |
| `GateLogic.StepKeepsDirectionSafe` | pi_py_bt_gate_control.py:150-256 | Every tick keeps the weak invariant, from any state that satisfies it, including both H-bridge pins low. |
| `GateRuns.RunKeepsMotorSafe` | pi_py_bt_gate_control.py:117-262 | From a state that satisfies the strong invariant, after any sequence of ticks the H-bridge holds the stop pattern unless the state is Opening with -1 or Closing with +1. |
| `GateRuns.RunKeepsDirectionSafe` | pi_py_bt_gate_control.py:117-262 | From a state that satisfies the weak invariant, after any sequence of ticks the H-bridge selects a direction only in Opening (-1) or Closing (+1). |
| `GateRuns.EstopFreezesRun` | pi_py_bt_gate_control.py:150-156 | While the emergency stop reads 0, the state and its timestamp stay frozen over any number of ticks. After at least one such tick the motor is stopped and the red pin is low. |
| `GateRuns.OpenRequestsKeepOpenSide` | pi_py_bt_gate_control.py:160-213 | From the open side, ticks that ask for opening (or are emergency-stopped) keep the gate on the open side and never move it back along WaitBeforeOpen, Opening, Opened. |
| `GateRuns.CloseRequestsKeepClosedSide` | pi_py_bt_gate_control.py:160-213 | The same holds for the closed side and ticks that ask for closing. |
| `GateRuns.RepeatedTickRetargetsNothing` | pi_py_bt_gate_control.py:122-213 | With the emergency stop released, repeating a tick with the same inputs makes its retarget phase a no-op. |
| `GateRuns.RetargetEndsInWait` | pi_py_bt_gate_control.py:160-213 | With the emergency stop released and the fresh timestamp no earlier than `now`, a tick that retargets ends in the requested wait state, with that timestamp and the motor stopped. |
| `GateRuns.CredentialInterruptsClosing` | pi_py_bt_gate_control.py:175-182 | With the emergency stop released and the fresh timestamp no earlier than `now`, an approved device seen while Closing retargets to WaitBeforeOpen within the tick, even under "Always Closed". The tick's first writes are the stop pattern, and the H-bridge ends stopped. As written, the program then ends at line 182 (see "Left out"). |
| `GateRuns.MorningRetargetsOpen` | pi_py_bt_gate_control.py:122-172 | With the emergency stop released and the fresh timestamp no earlier than `now`, "Closed at Night" at hour 10, Closed and no device gives `desired_state` Opened and WaitBeforeOpen in the same tick. |
| `GateRuns.TickWithoutRetarget` | pi_py_bt_gate_control.py:160-256 | With the emergency stop released, a tick that is already on the requested side ends as the advance and output phases leave it. |
| `GateRuns.WaitEndsInMotion` | pi_py_bt_gate_control.py:189-206 | With the emergency stop released, a tick that asks for the wait state's own side, strictly later than the dwell time after entering it, moves the gate to Opening (direction -1) or Closing (+1). |
| `GateRuns.MotionEndsStopped` | pi_py_bt_gate_control.py:195-213 | With the emergency stop released, a tick that asks for the moving state's own side, strictly later than the run time after starting to move, moves the gate to Opened or Closed with the motor stopped. |
| `GateRuns.OpeningWaitLeavesBridge` | pi_py_bt_gate_control.py:189-223 | While WaitBeforeOpen's dwell has not passed, a tick with the emergency stop released that asks for opening keeps the state and timestamp and does not change the H-bridge levels. So at start-up, only an emergency stop, a retarget or the start of Opening overwrites the levels set-up left. |
| `GateRuns.OpensAfterDwells` | pi_py_bt_gate_control.py:189-235 | Ticks with the emergency stop released that ask for opening take WaitBeforeOpen to Opening (motor -1), and then to Opened (motor stopped), on elapsed time alone. |
| `GateRuns.ClosesAfterDwells` | pi_py_bt_gate_control.py:202-256 | The same holds for ticks with the emergency stop released that ask for closing, through WaitBeforeClose, Closing (motor +1) and Closed. |
| `GateControl.GateController.constructor` | pi_py_bt_gate_control.py:106-108 | Start-up is WaitBeforeOpen, `desired_state` Opened and the start time as timestamp. It requires equal H-bridge levels, both high or both low, and it establishes the weak invariant `DirectionSafe`. |
| `GateControl.GateController.Output` | pi_py_bt_gate_control.py:28 | One `io.output` call issues exactly that one write and sets that pin's level, leaving the others. |
| `GateControl.GateController.SetRedLightOn` | pi_py_bt_gate_control.py:27-28 | It writes the red pin high, as `RedLight(true)` says. |
| `GateControl.GateController.SetRedLightOff` | pi_py_bt_gate_control.py:29-30 | It writes the red pin low, as `RedLight(false)` says. |
| `GateControl.GateController.SetHBridgeDirection` | pi_py_bt_gate_control.py:37-47 | Its three-way branch issues exactly `HBridgeWrites(n)` and updates the pin levels to match. |
| `GateControl.GateController.SetGreenLightOn` | pi_py_bt_gate_control.py:32-33 | It writes the red pin high, as `GreenLight(true)` says. |
| `GateControl.GateController.SetGreenLightOff` | pi_py_bt_gate_control.py:34-35 | It writes the red pin low, as `GreenLight(false)` says. |
| `GateControl.GateController.ResolveDesiredState` | pi_py_bt_gate_control.py:122-131 | The three sequential mode checks leave `desired_state` as `ResolveDesired` gives. |
| `GateControl.GateController.EmergencyStop` | pi_py_bt_gate_control.py:150-155 | It issues exactly the e-stop writes and touches nothing but the pins. |
| `GateControl.GateController.RetargetPhase` | pi_py_bt_gate_control.py:160-182 | The nested no-device and device branches, as written, have exactly the effect `Retarget` specifies. |
| `GateControl.GateController.AdvancePhase` | pi_py_bt_gate_control.py:189-213 | The four sequential checks, as written, have exactly the effect of the single advance `Advance` specifies. |
| `GateControl.GateController.OutputPhase` | pi_py_bt_gate_control.py:218-256 | The six sequential per-state blocks issue exactly `StateOutputs`. |
| `GateControl.GateController.Tick` | pi_py_bt_gate_control.py:117-262 | One loop pass leaves the fields and pins that `Step` gives, returns its writes in order, and keeps the weak invariant `DirectionSafe`. |

## Left out

- Bluetooth lookup (`bluetooth.lookup_name` with its timeout) is a foreign
  call. It is the input `credential`.
- Camera set-up and capture, and the motion-detection check, are left out as
  foreign I/O. As written, that check reads `lastTimeForPic_s` before it is
  ever assigned. So with a camera present and the motion input at 0, the
  loop stops with an exception before the emergency-stop check.
- The message at the device-detected retarget names an undefined `addr`. As
  written, printing it raises an exception right after the state change and
  the H-bridge stop, which ends the loop. The model keeps the state change
  and leaves out the message and the exception.
- GPIO set-up, `io.cleanup()`, `KeyboardInterrupt` handling and reading
  the approved-address file are hardware, process and file I/O.
- GateControl.GateController.constructor: requires the two H-bridge pins to
  start at equal levels, both high or both low. Set-up (lines 74-75) gives
  them no initial level. Before the first emergency stop, retarget or start
  of Opening, nothing writes them (`GateRuns.OpeningWaitLeavesBridge`). What
  set-up leaves on them is hardware behaviour the model does not know. With
  unequal levels at start-up, no invariant is promised. With both low, only
  the weak invariant `DirectionSafe` is promised, not `MotorSafe`.
- Gpio.MotorDirection: how the H-bridge acts on its control levels is
  hardware behaviour. The model takes (0,1) and (1,0) to be the two
  directions, as the program uses them. Both low is never written by the
  program, and the model takes it to select no direction. `DirectionSafe`
  rests on that reading. `MotorSafe` does not admit the both-low pattern.
- `print` logging throughout is left out.
- The blink test `(time_s * 2.0) % 2 == 0` is floating-point arithmetic on
  wall-clock time. It is the unconstrained input `flash`.
- `time.sleep` (1 s per tick, 4 s more under an emergency stop) is left out.
  It sets the loop's cadence and decides nothing.
- A retarget reads the clock again. That reading is the input `stamp`. The
  lemmas that need it to be no earlier than the tick's own reading say so in
  a `requires`.
- The mode is a fixed string in the program. The model takes it as a tick
  input, so every string is covered.

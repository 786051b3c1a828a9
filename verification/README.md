# Motors service control step, in Dafny

This project models the motors service of the PenguPilot autopilot
(`motors/service/main.c`). The service subscribes to two bus channels. The
`voltage` channel carries an array documented as `[sum, c_0, .., c_n]`, of
which the service reads only element 0 as the supply voltage. The
`motor_forces` channel carries `[enable, f_0, .., f_n]`: the enable
integer, then one force per motor. At start-up the service selects a
force-to-ESC curve by name and binds the output driver. Each received force command then
drives the motor state machine once. The service shapes one control value
per force according to the phase the state machine returns, and hands the
control vector to the driver.

Modules:

- `Wrappers`: `Option` and `Result`.
- `Messages`: decoded message arrays. Each element offers the `via.i64` and
  `via.dec` views the service reads. `Enable` reads element 0 of a forces
  message as a C `int` (`ToInt32`).
- `MotorStates`: the base phases and the saturation tag. Covers their
  encoding as codes 0..7, the documented state chart, and the
  `MOTORS_CONTROLLABLE` and `MOTORS_SATURATED` macros.
- `Configuration`: curve selection by name, driver binding, and the start-up
  configuration.
- `Shaping`: `MIN_GAS` and the per-phase output switch. Also the loop that
  fills the control array.
- `VoltageCell`: the voltage cell (default 16.0). `ReaderStep` is one
  iteration of the reader thread's loop and `ReaderRun` is the loop itself.
- `ControlLoop`: the service as a transition system over interleaved voltage
  and force receive results. `Step` is one iteration of the main loop, and
  `Run` is the main loop and the reader thread over a sequence of events.
  The state machine update and the curve bodies are parameters (`Env`). The
  state machine's own memory, such as its timers, is an abstract value of a
  type parameter `M`, threaded from call to call.

Three behaviours of the code are worth stating up front:

- The code never compares the message length with the configured motor
  count (motors/service/main.c:193-198, 229). The number of outputs comes
  from the message (`StepIgnoresMotorCount`).
- Running outputs are floored at `MIN_GAS` but have no upper clamp
  (motors/service/main.c:240; `RunningHasNoCeiling`).
- Any voltage message that unpacks replaces the cell by its element 0, with
  no check of the value (motors/service/main.c:119-123; `ReaderStep`).

## Model

| member | source | states |
|---|---|---|
| Messages.Enable | motors/service/main.c:230 | the enable of a forces message is element 0's integer view as a C `int`: in the signed 32-bit range, and equal to the element when it fits |
| Messages.ToInt32 | motors/service/main.c:230 | the enable integer is the 64-bit element reduced into the signed 32-bit range, congruent modulo 2^32, and unchanged when it already fits |
| Messages.EnableWrapsAtInt32 | motors/service/main.c:230 | an enable of 2^32 reads as 0 and one of 2^31 reads as -2^31: the narrowing is observable |
| MotorStates.Code | motors/service/main.c:25-48 | a state's code is below 8; its low two bits give the base phase (0 stopped .. 3 stopping); it is 4 or more exactly when the state is saturated |
| MotorStates.FromCode | motors/service/main.c:25-48 | exactly the codes 0..7 are run states, and each decodes to the state with that code |
| MotorStates.CodeRoundTrip | motors/service/main.c:42-48 | encoding a state and decoding the code gives the state back |
| MotorStates.Controllable | motors/service/main.c:52 | `MOTORS_CONTROLLABLE` holds exactly for the codes of the running phase, normal (2) or saturated (6) |
| MotorStates.SaturatedMacro | motors/service/main.c:53 | `MOTORS_SATURATED` as written tests bit 0x40: it is false below 0x40 and true from 0x40 to 0x7f |
| MotorStates.SaturatedMacroMissesSaturatedCodes | motors/service/main.c:42-53 | the macro as written is false on all eight documented codes, including the saturated running code 6 |
| MotorStates.SaturatedBit | motors/service/main.c:42-48 | the corrected test reads bit 0x04, and on codes 0..7 it holds exactly for the saturated codes 4..7 |
| MotorStates.Fire | motors/service/main.c:32-39 | the chart has exactly four edges: start from 0, timer from 1, stop from 2, timer from 3. Each leads to the successor in the cycle 0, 1, 2, 3, 0 |
| MotorStates.ChartIsOneCycle | motors/service/main.c:35-38 | the chart is one cycle of length four: four successor steps return to the start, and fewer never do |
| MotorStates.ChartOneEdgePerPhase | motors/service/main.c:35-38 | each phase has exactly one outgoing edge; which label fires it is stated by `Fire` |
| Configuration.SelectCurve | motors/service/main.c:183-191 | a selected curve has the given name. Selection fails with `-EINVAL` exactly when the name is none of the three known curve names |
| Configuration.SelectCurveName | motors/service/main.c:184-189 | each of the three curve names selects its own curve |
| Configuration.SelectDriver | motors/service/main.c:206-211 | `write_motors` is bound exactly when the driver name is "arduino"; other names are not an error |
| Configuration.Configure | motors/service/main.c:176-211 | start-up fails exactly when the curve name is unknown. Otherwise it keeps the curve, the motor count and the driver binding derived from the names |
| Shaping.ShapeDrive | motors/service/main.c:237-250 | running: at least `MIN_GAS` and at least the curve value, and equal to one of them. Starting: exactly `MIN_GAS`. Stopped or stopping: exactly 0 |
| Shaping.Ctrls | motors/service/main.c:229-251 | one control value per force (size - 1, at most 16). Running: each is `fmax(0.1, f2e(force_i, voltage))`. Starting: each is 0.1. Stopped or stopping: each is 0 |
| Shaping.Slots | motors/service/main.c:233-250 | one slot per force. In a base state, slot i holds the shaped value of force i. In a saturated state, the switch matches no case and every slot is unset |
| Shaping.FillCtrls | motors/service/main.c:233-251 | the loop over the forces produces, slot by slot, the shaped value of force i (element i + 1), and so the control vector |
| Shaping.CtrlsPointwise | motors/service/main.c:234-236 | output i depends only on element i + 1, the phase and the voltage: messages agreeing there agree on output i |
| Shaping.RunningHasNoCeiling | motors/service/main.c:240 | while running, a curve value at or above `MIN_GAS` is output unchanged: no upper clamp |
| VoltageCell.ReaderStep | motors/service/main.c:114-131 | an unpacked voltage message replaces the cell by its element 0; a failed receive or unpack leaves the cell unchanged |
| VoltageCell.ReaderRunIsLastSample | motors/service/main.c:109-135 | after any sequence of receive results, the cell holds the sample of the last message that unpacked, or its earlier value if none did |
| VoltageCell.ReaderKeepsDefaultWithoutSamples | motors/service/main.c:145 | until a voltage message unpacks, the cell keeps its start value 16.0 |
| ControlLoop.Boot | motors/service/main.c:139-214 | start-up fails with `-EIO` without the forces socket or the logger, then with `-ENOMEM` without the msgpack buffer, then with `-EINVAL` on an unknown curve name, and in no other case. Otherwise the loop starts stopped and unsaturated, with the machine's initial memory, at voltage 16.0, and with no update or write yet |
| ControlLoop.Step | motors/service/main.c:216-259 | a command makes exactly one update with its own (dt, enable), from the machine's memory, and keeps the memory and state it returns. One write of one slot per force follows, shaped by the returned state, saturated or not. Failed receive or unpack: memory, state, inputs and writes unchanged. Force events leave the voltage alone |
| ControlLoop.CommandOutputs | motors/service/main.c:237-250 | the array a command writes has size - 1 slots. Running: each is `fmax(0.1, f2e(force_i, voltage))`, so at least 0.1. Starting: each is 0.1. Stopped or stopping: each is 0, whatever force was requested. Saturated codes 4..7: every slot is unset |
| ControlLoop.StepIgnoresMotorCount | motors/service/main.c:193-198 | the configured motor count has no effect on a step: the output count comes from the message alone |
| ControlLoop.RunTrace | motors/service/main.c:216-260 | over any run the state machine receives exactly the commands' (dt, enable), once each and in order. The configuration is untouched |
| ControlLoop.RunWrites | motors/service/main.c:252 | over any run the driver receives exactly one control array per command, appended to earlier writes |
| ControlLoop.RunMachine | motors/service/main.c:229-232 | the machine's memory and reported state after any run are the update replayed over the commands' (dt, enable) in order, one update per command |
| ControlLoop.RunVoltage | motors/service/main.c:109-135 | the voltage after any interleaving of events is the reader run over the voltage messages alone; force messages never touch it |
| ControlLoop.RunVoltageIsLastSample | motors/service/main.c:114-131 | after any interleaving, the voltage used by the loop is the last unpacked voltage sample, or its earlier value |
| ControlLoop.RunWithoutCommandsHoldsState | motors/service/main.c:219-259 | with no command in a run, the state machine is not advanced (memory and state unchanged) and nothing is written, so a bus stall holds the last state |

## Left out

- Shaping.Ctrls: covers the four base phases only. The switch has no case for the saturated codes 4..7; `Shaping.Slots` and `ControlLoop.Step` record those slots as unset (`None`) rather than giving them a value.
- ControlLoop.Step: the model requires a bound driver whenever a command arrives. With any driver name but "arduino" the service calls an unbound `write_motors`, which has no defined behaviour.
- VoltageCell.ReaderStep: the model requires an unpacked voltage array to have at least one element. The service reads `ptr[0]` of an empty array, which has no defined behaviour.
- ControlLoop.Step: the model requires a command to have between 1 and 17 elements. The service reads element 0 of an empty array and has a 16-slot control array; both are undefined behaviour past those bounds.
- ControlLoop.Run: the model states what is written per command, not the driver's own reading of the 16-slot array beyond the first size - 1 slots. `ctrls` is an automatic array declared inside the loop body, so those slots are indeterminate on every cycle.
- ControlLoop.Boot: the voltage socket, opcd initialisation and the parameter lookups are not checked by the service and are not modelled. Their failures are not represented.
- Floating point: forces, voltages and control values are reals. The model rounds neither the double-to-float conversions nor `MIN_GAS` (0.1f, which is 0.100000001490116... as a float). Reals have no NaN or infinity. So the model cannot express that C's `fmax(MIN_GAS, NaN)` is `MIN_GAS`, that an infinite curve value passes through, or that a NaN voltage sample is stored unchecked.
- The force-to-ESC curve bodies are not part of this model. They are the `calib` parameter of `ControlLoop.Env`.
- The state machine (`motors_state_machine_init`, `motors_state_machine_update`) is not part of this model. Its update is the `update` parameter of `ControlLoop.Env`, over an abstract memory of type `M`, so timers that add up `dt` over cycles fit the model. Its initial memory is the `mem0` argument of `ControlLoop.Boot`, and the reported state is taken to be stopped and unsaturated until the first update. No particular spin-up or spin-down timing is modelled; only the documented chart is.
- Threads: the reader thread and the thread-safe float cell are modelled as an interleaving of events over one value. Visibility and ordering between threads are not modelled. The service reads the cell once per motor inside the loop (motors/service/main.c:240), so a concurrent update can give the motors of one command different voltages. `ControlLoop.Step` uses one voltage for the whole command.
- msgpack decoding and socket receive: messages arrive already decoded, as a `Recv` value. The service's assertion that the root is an array is built into that type.
- `interval_measure`: the elapsed time `dt` is an input carried by each force event.
- Parameter-store lookups, platform path building, logging, real-time scheduling setup, the `sleep` and `msleep` backoff, daemonization and the pidfile are I/O without logic of their own.
- The Arduino PWM driver is an abstract sink: the model records each control vector handed to it.

## Findings

| source | as written | input that shows it | evidently intended | confidence | as-written member | corrected member |
|---|---|---|---|---|---|---|
| motors/service/main.c:53 | `MOTORS_SATURATED` tests bit 0x40 | state 6 (running, saturated): `6 & 0x40` is 0, so the macro reports "not saturated" | test bit 0x04, which is set exactly on the documented saturated codes 4..7 | medium, not executed | MotorStates.SaturatedMacroMissesSaturatedCodes | MotorStates.SaturatedBit |

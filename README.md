# Three-motor joystick control, modelled in Dafny

`three_motor_control.py` drives three Dynamixel X-series motors on one serial bus from a
game controller. The left and right XM430 motors (ids 1 and 2) follow the horizontal axis
of the left stick together. The larger XM540 motor (id 0) steps with the two bumpers.
This project models two parts of that script:

- the per-motor register client `DynamixelController`: its constructor's configuration
  sequence, the torque, mode and profile setters, the clamped goal write, the signed
  present-position read, and `__del__`;
- the body of the main loop: the inverted axis, the 0.1 dead zone, the truncated offset
  applied to both coupled motors, the bumper `if/elif`, and what a failed read does to a
  tick.

It also models the loop around that body and the interrupt handler.

Modules, one per file:

- `wrappers.dfy` (`Wrappers`): `Option` and `Result`.
- `control_table.dfy` (`ControlTable`): the register addresses, register values, motor
  ids, position limits and profile targets of the script.
- `positions.dfy` (`Positions`):
  - `Clamp`, the `max(min(..))` of `set_goal_position`;
  - `Encode32`, the 32-bit two's-complement packing of a 4-byte write;
  - `Decode32`, the sign reinterpretation of `get_present_position`.
- `transport.dfy` (`Transport`): the SDK as a `Bus` object. The bus keeps the ordered trace
  of transactions (`Txn`: writes and reads). The register table keyed by (motor id,
  address) is the initial table with the writes applied in order (`Replay`).
- `dynamixel.dfy` (`Dynamixel`): the `DynamixelController` class, and `Connect` for the
  constructor's two setup failures. A method's effect is stated as the exact transactions
  it appends to the bus trace. What those transactions do to the registers is proved
  separately.
- `control_loop.dfy` (`ControlLoop`): one tick and the loop, specified and implemented.
  - `TickSpec` is a pure function giving the transactions of a tick and how it ends
    (`Completed`, or `Aborted(id)` when motor `id`'s read gave `None`). It executes the
    moves a snapshot commands, in order, until a read fails.
  - `CoupledPart` and `BumperPart` are a second, direct case analysis of the same tick.
    `TickSpecParts` proves the two definitions agree.
  - `Tick`, `RunTicks` and `Run` are methods over the three controllers. They are proved
    to issue exactly what `TickSpec` and `RunSpec` describe.

A failed read is an error outcome, never 0. In the script, `None + offset` raises
`TypeError` before `set_goal_position` is reached. The exception is not a
`KeyboardInterrupt`, so the interrupt handler's teardown does not run. The model's `Run`
states exactly that: on an aborted tick no torque-disable write follows, and every port is
still open when the exception leaves the loop.

The joystick snapshot and every read reply are inputs. A step sequence stands for the
samples the loop sees before the keyboard interrupt. The interrupt is taken to arrive
between ticks.

Three behaviours of the code are easy to misread, and the model follows the code in each:

- `int(a * 100)` truncates toward zero; it does not round. `Truncate` models that.
- A `None` read raises `TypeError`; the tick is not skipped for that motor. The model
  aborts the tick and ends the run.
- Torque is released only in the `KeyboardInterrupt` handler, not on every exit.

## Model

| member | source | states |
|---|---|---|
| Positions.Clamp | three_motor_control.py:80 | the result always lies in [-1,000,000, 1,000,000]; it equals the request when the request is in range, is 1,000,000 above the range and -1,000,000 below it; no request is rejected |
| Positions.ClampIsNearest | three_motor_control.py:80 | the clamped value is at least as close to the request as any in-range position: an out-of-range request saturates to the nearest bound |
| Positions.ClampMonotone | three_motor_control.py:80 | clamping preserves order and clamping twice is clamping once |
| Positions.Encode32 | three_motor_control.py:81 | a 4-byte write carries a value in [0, 2^32) and leaves a value already in that range unchanged |
| Positions.Decode32 | three_motor_control.py:88-89 | the decoded value lies in [-2^31, 2^31), is congruent to the raw value modulo 2^32, and is non-negative exactly when the raw value is below 2^31 |
| Positions.DecodeEncode | three_motor_control.py:88-89 | decoding inverts the 32-bit encoding: decode(x mod 2^32) == x for every x in [-2^31, 2^31) |
| Positions.EncodeDecode | three_motor_control.py:88-89 | encoding inverts decoding on every raw 32-bit value |
| Positions.GoalRoundTrip | three_motor_control.py:80-81 | a clamped goal written as 4 bytes decodes back to the clamped goal, negative goals included |
| Transport.Bus.Write1Byte | three_motor_control.py:60 | a 1-byte write appends exactly that write to the bus trace |
| Transport.Bus.Write4Byte | three_motor_control.py:72 | a 4-byte write appends the write of the value's low 32 bits to the bus trace |
| Transport.Bus.Read4Byte | three_motor_control.py:85-86 | a read appends the read to the bus trace and hands back the device's reply |
| Transport.ReplayKeepsOtherRegisters | three_motor_control.py:81 | transactions that write only at one address, such as goal writes, leave every register at every other address as it was |
| Dynamixel.PresentPosition | three_motor_control.py:87-92 | a position is returned exactly when the communication result is success and the device error is 0; otherwise `None`; a returned position is a signed 32-bit value whose encoding is the raw reply |
| Dynamixel.PresentPositionSign | three_motor_control.py:88-90 | on a successful read, a raw value up to 0x7FFFFFFF is returned unchanged and a larger one is returned as raw - 2^32 |
| Dynamixel.GoalWrite | three_motor_control.py:80-81 | a goal write is a write to the motor's own address 116 whose value decodes to the clamped request, which lies in range |
| Dynamixel.StartupWrites | three_motor_control.py:52-56 | the configuration is five writes to the motor's own id, the first disabling torque and the last enabling it, with no torque write between them |
| Dynamixel.GoalRegisterHoldsClamp | three_motor_control.py:80-81 | after a goal write the goal register decodes to the clamped request, and no register at any other address changes |
| Dynamixel.StartupConfiguresRegisters | three_motor_control.py:52-56 | after the startup writes the motor's torque register holds 1, its mode register 4, its profile velocity 1000 and its profile acceleration 100, and no other motor's registers change |
| Dynamixel.StartupSetsModeWithTorqueOff | three_motor_control.py:52-53 | within the startup writes, the operating mode is written while that motor's torque register holds 0 |
| Dynamixel.TorqueWriteReleases | three_motor_control.py:64 | a torque-disable write leaves that motor's torque register at 0 |
| Dynamixel.DynamixelController.constructor | three_motor_control.py:51-56 | construction appends exactly five writes to the motor's own id, in order: 0 to 64, 4 to 11, 1000 to 112, 100 to 108, 1 to 64 |
| Dynamixel.Connect | three_motor_control.py:40-56 | a port that does not open, or that refuses the baud rate, fails with that error and writes nothing; otherwise a fresh controller with its port open has issued the five startup writes |
| Dynamixel.DynamixelController.EnableTorque | three_motor_control.py:58-60 | appends the write of 1 to address 64 of its motor |
| Dynamixel.DynamixelController.DisableTorque | three_motor_control.py:62-64 | appends the write of 0 to address 64 of its motor |
| Dynamixel.DynamixelController.SetOperatingMode | three_motor_control.py:66-68 | appends the 1-byte write of the mode to address 11 of its motor |
| Dynamixel.DynamixelController.SetProfileVelocity | three_motor_control.py:70-72 | appends the 4-byte write of the velocity to address 112 of its motor |
| Dynamixel.DynamixelController.SetProfileAcceleration | three_motor_control.py:74-76 | appends the 4-byte write of the acceleration to address 108 of its motor |
| Dynamixel.DynamixelController.SetGoalPosition | three_motor_control.py:78-81 | appends the 4-byte write of the clamped request to address 116 of its motor |
| Dynamixel.DynamixelController.GetPresentPosition | three_motor_control.py:83-92 | appends the read of address 132 of its motor and returns the decoded position, or `None` on a failed transaction |
| Dynamixel.DynamixelController.Teardown | three_motor_control.py:94-97 | appends the torque-disable write, leaves the motor's torque register at 0 and the port closed |
| ControlLoop.Truncate | three_motor_control.py:121 | the result is the integer part of the argument: truncation toward zero for both signs |
| ControlLoop.PositionOffset | three_motor_control.py:121 | for an axis in [-1, 1] the offset lies in [-100, 100], and a non-zero offset has the sign of the axis |
| ControlLoop.OffsetOutsideDeadZone | three_motor_control.py:120-121 | outside the dead zone the offset is non-zero, with the axis's sign, between 10 and 100 in magnitude |
| ControlLoop.StickX | three_motor_control.py:115 | the inverted axis has the same distance from centre as the raw axis and is positive exactly when the raw axis is negative |
| ControlLoop.Nudge | three_motor_control.py:122 | a read-then-write starts with the read of that motor's present position, issues at most one more transaction, and completes exactly when the read gives a position; otherwise it aborts at that motor after the read alone |
| ControlLoop.StickOffset | three_motor_control.py:120 | the stick commands no offset exactly when the inverted axis is within 0.1 of centre |
| ControlLoop.BumperDelta | three_motor_control.py:126-129 | no step exactly when neither bumper is pressed; the step is -100 exactly when the left bumper is pressed, whatever the right one does, and +100 otherwise |
| ControlLoop.CoupledPart | three_motor_control.py:120-123 | the stick part issues at most four transactions and can abort only at the left or the right motor |
| ControlLoop.BumperPart | three_motor_control.py:126-129 | the bumper part issues at most two transactions and can abort only at the larger motor |
| ControlLoop.TickSpec | three_motor_control.py:115-129 | one tick issues at most six transactions: a read and a write for each of the three motors |
| ControlLoop.TickSpecParts | three_motor_control.py:119-129 | executing the commanded moves in order is the stick part followed, if it completed, by the bumper part |
| ControlLoop.NudgeGoals | three_motor_control.py:122 | a read-then-write touches only its own motor, writes the clamped moved position when the read succeeds, and issues the read alone, aborting, when it gives `None` |
| ControlLoop.CoupledGoals | three_motor_control.py:120-123 | the stick part writes no goal to the larger motor, nothing inside the dead zone, and outside it gives the left motor, then the right motor if the left read succeeded, its present position plus the shared offset, clamped |
| ControlLoop.BumperGoals | three_motor_control.py:126-129 | the bumper part touches only the larger motor, does nothing with no bumper pressed, and otherwise writes its clamped stepped position or aborts on a failed read |
| ControlLoop.TickDeadZone | three_motor_control.py:120 | inside the dead zone a tick addresses only the larger motor and writes no goal to the left or right motor |
| ControlLoop.TickCoupled | three_motor_control.py:120-123 | outside the dead zone, with both reads successful, the left and right motors each get exactly one goal: their own present position plus the same offset, clamped |
| ControlLoop.TickLeftReadFails | three_motor_control.py:122 | outside the dead zone a failed left read ends the tick with that read as its only transaction, aborted at the left motor |
| ControlLoop.TickRightReadFails | three_motor_control.py:123 | outside the dead zone a failed right read ends the tick after the left motor was already moved: read left, write left, read right, aborted at the right motor |
| ControlLoop.TickBumpers | three_motor_control.py:126-129 | with the stick part completed and a bumper pressed and read successful, the larger motor gets exactly one goal: present - 100 if the left bumper is pressed, else present + 100, clamped |
| ControlLoop.TickLargerReadFails | three_motor_control.py:127 | a failed read of the larger motor ends the tick right after that read, with no write to it |
| ControlLoop.TickNoBumper | three_motor_control.py:126-129 | with no bumper pressed the tick is its stick part alone: the larger motor is neither read nor written |
| ControlLoop.ExecuteWritesSafeGoals | three_motor_control.py:122-129 | any sequence of read-then-write moves writes only goal positions, each in range |
| ControlLoop.TickWritesSafeGoals | three_motor_control.py:119-129 | a tick writes only goal positions, each in [-1,000,000, 1,000,000] |
| ControlLoop.HalfStickScenario | three_motor_control.py:115-123 | axis -0.5 with both motors at 200,000 gives both the goal 200,050 |
| ControlLoop.SaturatingBumperScenario | three_motor_control.py:128-129 | the right bumper with the larger motor at 999,970 gives the goal 1,000,000 |
| ControlLoop.RunSpec | three_motor_control.py:110-132 | a run over n samples issues at most 6n transactions |
| ControlLoop.RunAbortIsFinal | three_motor_control.py:110-132 | once a tick has aborted, later samples add nothing: the loop is over |
| ControlLoop.RunWritesSafeGoals | three_motor_control.py:110-132 | a whole run writes only goal positions, each in range |
| ControlLoop.RunKeepsConfiguration | three_motor_control.py:110-132 | a run leaves the torque, mode and profile registers as startup set them, and keeps every mode write made while torque was off |
| ControlLoop.ShutdownWrites | three_motor_control.py:136-138 | the interrupt handler issues three torque-disable writes, to the left, right and larger motors in that order |
| ControlLoop.ShutdownReleasesTorque | three_motor_control.py:136-138 | after the interrupt handler's writes all three motors have torque disabled |
| ControlLoop.NudgeMotor | three_motor_control.py:122 | `set_goal_position(get_present_position() + delta)` issues exactly the read and clamped write of the specification, or the read alone, aborting, on `None` |
| ControlLoop.CoupledStep | three_motor_control.py:120-123 | the stick branch issues exactly the stick part's transactions and ends as it does |
| ControlLoop.BumperStep | three_motor_control.py:126-129 | the bumper branch issues exactly the bumper part's transactions and ends as it does |
| ControlLoop.Tick | three_motor_control.py:115-129 | one pass of the loop body issues exactly the transactions of `TickSpec` and ends as it does |
| ControlLoop.Shutdown | three_motor_control.py:136-138 | the interrupt handler tears down the left, right and larger motors in that order: three torque-disable writes, all ports closed |
| ControlLoop.RunTicks | three_motor_control.py:110-132 | the loop issues exactly the transactions of `RunSpec` over the samples, stopping at the first aborted tick |
| ControlLoop.Run | three_motor_control.py:110-139 | a run that reaches the interrupt ends with the teardown: trace plus three torque-disable writes, ports closed, torque off on all three motors; an aborted run issues no teardown and leaves every port open |

## Left out

- pygame: joystick initialisation, the event pump, `time.wait` and `pygame.quit`. These are device I/O. The sampled axis and bumper states are inputs.
- The Dynamixel SDK's framing, checksums, port opening and baud negotiation. The bus is the trace of register transactions. Whether the port opens and accepts the baud rate are inputs of `Connect`.
- The results of writes, which the script ignores. Every write is assumed to reach the register table.
- `threading.Lock`: every method is one atomic transaction in a sequential model.
- Floating point. The axis is a `real`, so IEEE rounding at the 0.1 threshold and in `a * 100` is not captured.
- The module-level construction of the three motors, and the fate of motors already built when a later construction raises. Only one motor's construction is modelled, by `Connect`.
- `print` logging.
- A `__del__` run by the interpreter at exit, after an uncaught `TypeError` ended the loop, is not modelled. The controllers are module-level globals, so the interpreter may still disable torque and close the ports then. `Run` promises only that the interrupt handler's teardown does not run.
- Dynamixel.DynamixelController.Teardown: requires an open port. A second `__del__`, run by the garbage collector after the interrupt handler already closed the port, is not modelled.
- Dynamixel.DynamixelController.SetOperatingMode: requires a mode that fits in one byte. The script only passes 4, and what the SDK does with wider values is not part of this model.
- ControlLoop.RunTicks: the endless `while True` is modelled over a finite sequence of samples. Running out of samples stands for the keyboard interrupt arriving between two ticks. An interrupt in the middle of a tick is not modelled.

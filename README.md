# BallTosser teleop controller, modelled in Dafny

The BallTosser robot's operator-control task, `BallTosser/src/opcontrol.c`, takes orders from a companion computer over seven digital pins:

- READY is an output. The robot holds it high while it accepts a command.
- CMDA and CMDB carry a 2-bit command.
- CMD0..CMD3 carry a 4-bit distance.

On each pass of its endless loop, `operatorControl()` does the following:

1. It raises READY and reads the command.
2. For command 3, it lowers READY and calls `fire()`.
3. For any other command, it reads the distance, lowers READY and calls `turn(command - 1, dist)`.
4. It sets `isReady` back to 1. The next pass writes READY high again.

`turn()` sets both drive motors to ±127 for `dist * 32` ms, then stops them. `fire()` works in four steps:

1. It spins up the two launcher wheels.
2. It drives the trigger forward until the potentiometer reads at most 300.
3. It drives the trigger back until it reads at least 500.
4. It stops all three motors.

## How the model works

The controller board is a class, `Hardware.Cortex`. Each PROS call the controller makes (`pinMode`, `digitalWrite`, `digitalRead`, `analogRead`, `motorSet`, `motorStop`, `delay`) is a method that appends one `Event` to the field `trace`.

The board also has two inputs:

- `inputs` holds the levels of the six input pins.
- `pot` holds the readings `analogRead` will return, in order: a finite feed.

The actuator state is `Cortex.Out()`. It replays the trace (`Hardware.Replay`), so it keeps the last speed commanded on each motor port and the last level written to each output pin.

Each controller routine is a method whose postcondition fixes the new trace. The trace equals the old trace plus a pure function of the inputs and the feed: `TurnEvents`, `FireEvents` or `PassEvents`. The properties the source promises are proved as lemmas about those functions and their `Replay`.

The modules are:

| module | file | contents |
|---|---|---|
| `Hardware` | `hardware.dfy` | the pin and port constants, `Event`, `Outputs` and `Replay`, the `Cortex` class |
| `Protocol` | `protocol.dfy` | command and distance decoding, with their encodings |
| `Drive` | `drive.dfy` | `turn()` |
| `Launcher` | `launcher.dfy` | `fire()` and its two busy-wait loops |
| `Teleop` | `teleop.dfy` | one loop pass, and `operatorControl()` over a finite list of input frames |

**Command 0 differs from the comment.** The comment at `opcontrol.c:94` says command 0 means "do nothing". The model follows the code instead:

- Command 0 becomes `turn(-1, dist)`.
- In C, -1 is true, so this takes the same branch as command 2 (`turn(1, dist)`).
- The robot therefore turns at -127. `Teleop.CommandDirections` states this.

## Model

| member | source | states |
|---|---|---|
| Protocol.DecodeCommand | BallTosser/src/opcontrol.c:99-100 | the command lies in 0..3; its low bit is CMDA and its high bit is CMDB |
| Protocol.EncodeCommand | BallTosser/src/opcontrol.c:99-100 | for every command c in 0..3 there are pin levels that decode to c |
| Protocol.CommandRoundTrip | BallTosser/src/opcontrol.c:99-100 | encoding the decoded command gives back the pin levels, so distinct pin pairs give distinct commands |
| Protocol.DecodeDistance | BallTosser/src/opcontrol.c:110-113 | the distance lies in 0..15; its lowest bit is CMD0 and its highest bit is CMD3 |
| Protocol.EncodeDistance | BallTosser/src/opcontrol.c:110-113 | decoding the 4-bit encoding of any n in 0..15 gives n |
| Protocol.DistanceRoundTrip | BallTosser/src/opcontrol.c:110-113 | encoding the decoded distance gives back the four pin levels |
| Drive.TurnSpeed | BallTosser/src/opcontrol.c:131-144 | both drive motors get +127 exactly when dir is 0, and -127 exactly when dir is nonzero |
| Drive.TurnDelay | BallTosser/src/opcontrol.c:126-129 | the delay is dist*32 ms; for a decoded distance it lies in 0..480 ms |
| Drive.TurnDrivesDuringDelay | BallTosser/src/opcontrol.c:131-144 | when turn() starts its delay, both drive motors run at the same speed, TurnSpeed(dir) |
| Drive.TurnStopsDrive | BallTosser/src/opcontrol.c:131-144 | in either branch, turn() returns with both drive motors at 0 and every pin unchanged |
| Drive.Turn | BallTosser/src/opcontrol.c:125-145 | turn(dir, dist), in both branches as written, issues exactly TurnEvents(dir, dist); the actuator state afterwards is the old one with those calls replayed |
| Launcher.FirstAtOrBelow | BallTosser/src/opcontrol.c:156 | the index where the forward loop stops: every earlier reading is above the bound, and the reading there is at or below it |
| Launcher.FirstAtOrAbove | BallTosser/src/opcontrol.c:159 | the index where the backward loop stops: every earlier reading is below the bound, and the reading there is at or above it |
| Launcher.FireDoneIff | BallTosser/src/opcontrol.c:156-161 | fire() returns exactly when the feed has a reading ≤ 300 followed later by a reading ≥ 500 |
| Launcher.FireDoneStopsAll | BallTosser/src/opcontrol.c:159-165 | once fire() returns: the forward loop ended on a reading ≤ 300, the backward loop on a later reading ≥ 500, and TRIG, LAUNCHA and LAUNCHB are all 0 |
| Launcher.SpinUpReplay | BallTosser/src/opcontrol.c:152-154 | spin-up sets LAUNCHA to +127 and LAUNCHB to -127 and changes nothing else |
| Launcher.StopAllReplay | BallTosser/src/opcontrol.c:163-165 | the final stops set TRIG, LAUNCHA and LAUNCHB to 0 and change nothing else |
| Launcher.FireTriggerGuarded | BallTosser/src/opcontrol.c:156-161 | every trigger command directly follows a reading that allows it: +127 only after a reading > 300, -127 only after a reading < 500 |
| Launcher.TriggerPhaseOnly | BallTosser/src/opcontrol.c:152-161 | after spin-up and before the stops, fire() only reads the potentiometer and commands the trigger |
| Launcher.LaunchersSpin | BallTosser/src/opcontrol.c:152-161 | from the end of spin-up until the stops, LAUNCHA is at +127 and LAUNCHB at -127 |
| Launcher.LaunchersSpinWhileTriggerMoves | BallTosser/src/opcontrol.c:152-158 | at every trigger command, both launcher wheels are already spinning |
| Launcher.FireStalledKeepsLaunchers | BallTosser/src/opcontrol.c:156-161 | when the feed runs out inside a loop, both wheels are left spinning |
| Launcher.FireOnlyLaunches | BallTosser/src/opcontrol.c:147-166 | fire() touches no pin and no drive motor: it only reads the potentiometer, waits, or commands TRIG, LAUNCHA or LAUNCHB |
| Launcher.TriggerForward | BallTosser/src/opcontrol.c:156-158 | the forward loop reads until the first reading ≤ 300, commanding +127 after each reading above it; it reports whether that reading exists and consumes exactly the readings up to it |
| Launcher.TriggerBack | BallTosser/src/opcontrol.c:159-161 | the backward loop reads until the first reading ≥ 500, commanding -127 after each reading below it; it reports whether that reading exists and consumes exactly the readings up to it |
| Launcher.SpinUpLaunchers | BallTosser/src/opcontrol.c:152-154 | the spin-up issues the two wheel commands and the 500 ms delay |
| Launcher.StopLaunchers | BallTosser/src/opcontrol.c:163-165 | the three stops |
| Launcher.Fire | BallTosser/src/opcontrol.c:147-166 | fire() issues exactly FireEvents(feed), consumes FireConsumed(feed) readings, and reports FireDone(feed) |
| Teleop.EncodeFrame | BallTosser/src/opcontrol.c:99-113 | for every command in 0..3 and distance in 0..15 there is an input frame that carries them |
| Teleop.Session | BallTosser/src/opcontrol.c:90-121 | a bounded run serves every frame unless a fire() pass stalls; a stalled run has served at least one pass; at most the whole feed is left unread |
| Teleop.FireDispatch | BallTosser/src/opcontrol.c:101-108 | command 3 writes READY, reads the command, writes READY low and runs fire(); it reads no distance pin and touches no drive motor |
| Teleop.TurnDispatch | BallTosser/src/opcontrol.c:109-119 | any other command reads the four distance pins, writes READY low, runs turn(command - 1, dist), takes no reading and leaves both drive motors at 0 |
| Teleop.CommandDirections | BallTosser/src/opcontrol.c:117 | command 1 turns at +127 and command 2 at -127; command 0 also turns at -127, with the same calls as command 2 |
| Teleop.ReadyLowWhileMoving | BallTosser/src/opcontrol.c:101-119 | READY is low at every motor command of a pass and after the maneuver |
| Teleop.StallIsFire | BallTosser/src/opcontrol.c:101-108 | a run stalls only in a fire() pass, after it has used up the feed |
| Teleop.SessionAdvance | BallTosser/src/opcontrol.c:90-121 | one more loop pass either leaves the rest of the run to the next frame, or ends the run by stalling |
| Teleop.FireManeuver | BallTosser/src/opcontrol.c:102-105 | the fire branch writes READY low and then runs fire() |
| Teleop.TurnManeuver | BallTosser/src/opcontrol.c:110-117 | the turn branch reads the distance, writes READY low and runs turn(command - 1, dist) |
| Teleop.Pass | BallTosser/src/opcontrol.c:91-120 | one loop pass issues PassEvents and returns the decoded command; dist is updated only in the turn branch; isReady is 1 again exactly when the maneuver returned |
| Teleop.PreparePins | BallTosser/src/opcontrol.c:82-88 | READY is configured as output and CMDA..CMD3 as inputs |
| Teleop.OperatorControl | BallTosser/src/opcontrol.c:76-122 | after the pin setup the trace is the run over the frames; each pass starts with READY high; the method returns the unread readings and whether it stalled |

## Left out

- Real hardware I/O and timing. PROS calls only append to the trace, and `delay` only records its argument. No call takes time.
- The PROS library behaviour behind the calls: `motorSet` clamping, and what `digitalRead` returns on a floating pin. The PROS library is not part of this model.
- The FreeRTOS task lifecycle around `operatorControl()` (`opcontrol.c:59-75`). This is kernel behaviour: the kernel starts, stops and restarts the routine.
- The endless `while (1)` at `opcontrol.c:90`. `Teleop.OperatorControl` runs one pass per element of a finite list of input frames. Between passes, the companion computer's change of the input pins is an environment step (`Cortex.SetInputs`), not a controller call.
- Drive.TurnDelay: treats `dist * distScale` (`opcontrol.c:126-129`) as exact integer multiplication by 32. It does not model the float product or its conversion into `delay`'s unsigned parameter. Both are exact for the distances 0..15 that can be decoded.
- Evaluation order. C leaves unspecified the order of the `digitalRead` operands in the sums at `opcontrol.c:99-100` and `110-113`. The model reads them left to right. The reads do not affect the actuator state.
- Launcher.Fire: the busy-wait loops run over a finite feed of readings. When the feed runs out inside a loop, the model returns `done == false` at the point where the robot would still be waiting. No bound on how long the real loops wait is modelled.
- Teleop.OperatorControl: when a fire() pass stalls on an exhausted feed, the run stops there, because the real program would still be inside `fire()`.
- The autonomous routines in `Vex U Toss Up/src/auto.c` are not part of this model.

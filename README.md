# ArtyBot line follower: DHB1 motor driver and control loop

A Dafny model of the firmware in `main.c` for a two-motor line-following robot
on a MicroBlaze soft core. The firmware drives a DHB1 dual H-bridge through
seven memory-mapped 32-bit registers: direction, enable and PWM duty for each
of motor 1 and motor 2, and one global PWM enable. It reads a 2-bit line
sensor and picks one of four actions on each pass of its polling loop.

The model has three modules:

- `Registers` (`registers.dfy`): the register block as a value (`Regs`), the
  stores and delays the firmware performs as `Event`s, `Apply` and `Replay`
  (the registers after one event and after a whole write trace), and
  `Throughout` (a condition that holds at every event of a trace, checked
  against the registers just before that event). Register values are `u32`.
  A C `int` duty stored into a register is reduced modulo 2^32 (`U32`).
- `Driver` (`driver.dfy`): the helpers `motor_forward`, `motor_backward`,
  `motor_left`, `motor_right`, `motor_enable`, `motor_disable`, `motor_stop`,
  `motor_set_speed` and `motor_pulse_forward`. Each helper's write order is
  a trace function. Lemmas state what each trace does to the registers. The
  class `Dhb1` holds the seven registers as fields. Its methods make the
  stores in the source's order and keep a ghost write trace. `Valid()` says
  that the fields always equal the replay of that trace from the power-on
  contents.
- `LineFollower` (`control.dfy`): the start-up motor tests and the polling
  loop of `main`. The sensor decode and the if/else-if chain become the pure
  functions `Decode` and `Dispatch`. One pass of the loop is `ControlStep`.
  `Firmware` is `main`: the tests, then one pass per sensor word.

The model follows the code as written. In particular:

- `motor_enable` stores 0 into `EN_M1` and 1 into `EN_M2`, so the firmware
  never stores a nonzero value into `EN_M1`. Whatever `EN_M1` held at
  power-on stays until main.c:70 first runs. `LoopSafe` proves that `EN_M1`
  stays 0 throughout the loop.
- `motor_set_speed` is a complete 100 ms pulse. It latches the duty, turns
  PWM on and enables. It waits, then zeroes both duties and the PWM enable and
  disables. So after every pass the motors are off again.
- The direction helpers write the direction registers without first clearing
  the enables. The loop is still safe because every pass starts idle: both
  enables, both duties and the PWM enable are 0 (`StepSafe`, `LoopSafe`).
  The first direction store at power-on happens with unknown enables, so
  safety is stated from the first pass of the loop onward (`FirmwareSafe`).
- The duty is written before the enables. While the pulse runs, motor 1 has
  its duty latched but its enable off (`SetSpeedDrivesDuringWait`).
- `usleep(20000)` counts microseconds and is modelled as `Wait(20)`, in
  milliseconds like `busy_wait_ms`.

## Model

| member | source | states |
|---|---|---|
| `Registers.U32` | main.c:96-99 | storing a C `int` into a 32-bit register keeps it when it is in [0, 2^32) and otherwise reduces it modulo 2^32 |
| `Registers.Apply` | main.c:17-24 | a store gives the value to exactly the register it names (one motor's direction, enable or duty, or the PWM enable); the other motor's register of the same kind and every other register keep their values; a delay changes no register |
| `Driver.DirectionTruthTable` | main.c:44-66 | forward stores 1,1, backward 0,0, left 0,1 and right 1,0 into DIR_M1, DIR_M2; enable and PWM registers are unchanged |
| `Driver.EnableDisableEffect` | main.c:68-78 | motor_enable leaves EN_M1 = 0 and sets EN_M2 = 1; motor_disable sets both to 0; nothing else changes |
| `Driver.StopEffect` | main.c:83-90 | after motor_stop both duties and both enables are 0; directions and PWM_EN are unchanged |
| `Driver.StopIdempotent` | main.c:83-90 | stopping twice leaves the same registers as stopping once |
| `Driver.SpeedOnEffect` | main.c:98-102 | after the first half of motor_set_speed both duties hold the duty, PWM_EN = 1, EN_M2 = 1 and EN_M1 = 0 |
| `Driver.SetSpeedEffect` | main.c:96-111 | after motor_set_speed, from any state, both duties, PWM_EN and both enables are 0 and the directions are unchanged |
| `Driver.SetSpeedDrivesDuringWait` | main.c:96-104 | the sixth of the eleven events of motor_set_speed is the 100 ms wait; during it both duties hold the duty and PWM_EN = 1, motor 2 is enabled and motor 1 has its duty latched but its enable off |
| `Driver.SetSpeedNoStaleDuty` | main.c:96-111 | every store that asserts an enable comes after the new duty is in both duty registers and PWM_EN = 1 |
| `Driver.PulseForwardEffect` | main.c:116-122 | after motor_pulse_forward both directions are forward and nothing is driven |
| `Driver.Dhb1.constructor` | main.c:17-24 | the registers start with arbitrary power-on contents and an empty write trace |
| `Driver.Dhb1.Store` | main.c:17-24 | one volatile store: the registers become `Apply` of the old registers, and the event is appended to the trace |
| `Driver.Dhb1.Delay` | main.c:35-39 | a busy wait appends a `Wait` event and changes no register |
| `Driver.Dhb1.MotorForward` | main.c:44-48 | appends the forward trace; DIR_M1 = DIR_M2 = 1, everything else unchanged |
| `Driver.Dhb1.MotorBackward` | main.c:50-54 | appends the backward trace; DIR_M1 = DIR_M2 = 0, everything else unchanged |
| `Driver.Dhb1.MotorLeft` | main.c:56-60 | appends the left trace; DIR_M1 = 0, DIR_M2 = 1, everything else unchanged |
| `Driver.Dhb1.MotorRight` | main.c:62-66 | appends the right trace; DIR_M1 = 1, DIR_M2 = 0, everything else unchanged |
| `Driver.Dhb1.MotorEnable` | main.c:68-72 | appends the enable trace; EN_M1 = 0, EN_M2 = 1, everything else unchanged |
| `Driver.Dhb1.MotorDisable` | main.c:74-78 | appends the disable trace; both enables 0, everything else unchanged |
| `Driver.Dhb1.MotorStop` | main.c:83-90 | appends the stop trace; both duties and enables 0; directions and PWM_EN unchanged |
| `Driver.Dhb1.MotorSetSpeed` | main.c:96-111 | appends the eleven-event pulse trace; afterwards duties, PWM_EN and enables are 0 and directions unchanged |
| `Driver.Dhb1.MotorPulseForward` | main.c:116-122 | appends forward, the pulse, the wait and the stop; directions forward, nothing driven |
| `LineFollower.Decode` | main.c:169-172 | `left` is nonzero exactly when bit 0 of the sensor word is set (then it is 1), `right` exactly when bit 1 is set (then it is 2) |
| `LineFollower.Dispatch` | main.c:169-192 | the decode and the if/else-if chain: both bits set gives forward at 35000, only bit 0 left at 30000, only bit 1 right at 30000, neither stop; each case holds exactly when its bits do |
| `LineFollower.DispatchIgnoresHighBits` | main.c:169-172 | two sensor words that agree in bits 0 and 1 give the same action |
| `LineFollower.CommandEffect` | main.c:174-192 | each action leaves its directions and nothing driven; stop keeps directions and PWM_EN |
| `LineFollower.SetSpeedSafe` | main.c:96-111 | no event of motor_set_speed stores a direction or a nonzero EN_M1; so from EN_M1 = 0 every direction-store condition holds, EN_M1 reads 0 before every event and is still 0 at the end |
| `LineFollower.CommandSafe` | main.c:174-192 | from an idle state each action stores directions only while both enables are 0, never enables motor 1, and ends idle |
| `LineFollower.StepSafe` | main.c:167-195 | one pass of the loop preserves the idle invariant and stores directions only while both enables are 0 |
| `LineFollower.LoopSafe` | main.c:167-195 | over any number of passes from idle: idle at the top of every pass, direction stores only with both enables 0, EN_M1 always 0 |
| `LineFollower.TestPulseEffect` | main.c:144-160 | each backward, right or left test pulse keeps the directions it set and ends with nothing driven |
| `LineFollower.SelfTestEndsIdle` | main.c:141-160 | whatever the power-on contents, the motor tests end idle with the left directions, so the loop invariant holds on entry |
| `LineFollower.FirmwareSafe` | main.c:141-195 | from the first pass of the loop onward every direction store happens while both enables are 0, and motor 1 is never enabled |
| `LineFollower.SelfTest` | main.c:141-160 | performs the four test pulses in order; appends their trace and leaves the registers idle |
| `LineFollower.ControlStep` | main.c:167-195 | one pass for sensor word `ls`, entered and left idle; appends the dispatched action's trace and the 20 ms poll wait; the new registers are that trace replayed, with the action's directions (forward 1,1, left 0,1, right 1,0, stop unchanged) |
| `LineFollower.Firmware` | main.c:127-198 | the motor tests, then one pass per sensor word; the trace is the tests' followed by each pass's, the registers are that trace replayed from the old ones, and the loop keeps the idle invariant |

## Left out

- `xil_printf` status output (main.c:129, 136, 141-162): diagnostic text only, never read back.
- `XGpio_Initialize`, `XGpio_SetDataDirection` and `XGpio_DiscreteRead` (main.c:134-135, 169): Xilinx library calls. The sensor word read on each pass is a parameter (`ls`, or the sequence `words`).
- The timing of `busy_wait_ms` (an instruction-count loop) and of `usleep`: both are `Wait` events that change no register.
- Base addresses and offsets, including the unused `MOTORFB_BASEADDR` (main.c:8-24): deployment constants. The registers are fields and values.
- `volatile` and memory-mapped I/O: the code is single-threaded without interrupts, so a store is a plain field assignment.
- LineFollower.Firmware: runs the `while (1)` loop over a finite sequence of sensor words instead of forever; `LoopSafe` covers every finite number of passes.
- The unreachable `return 0` of `main`.

# Zeiss stage command queue — a Dafny model

The grbl-zeiss fork replaces grbl's stepper driver with a driver that sends
moves to a motorised Zeiss microscope stage over a CAN bus. The front end
calls `queue_stage_cmd` to put a motion command into an eight-slot circular
buffer. A timer interrupt runs about once a millisecond. When a command is
queued, it asks the stage whether the X axis is free. When the reply says
ready, it is meant to send the head command and retire it.

This project models that driver's state and operations:

- `Ints` — the AVR target's 16-bit `int` and 32-bit `long`, with explicit
  narrowing (`Wrap16`) and `strtol`'s saturation (`Saturate32`).
- `HexParse` — `strtol(reply, NULL, 16)` on the reply bytes, and the
  readiness test built on it.
- `CmdRing` — the buffer as values: the `Cmd` record, the wrap-around index
  step `Next`, the driver's empty and full tests, and `Resident`, the queued
  commands oldest first.
- `ZeissStage` — the class `Stage` holding the driver's globals:
  `cmd_buffer` (an `array<Cmd>` of length 8), `cmd_q_front`,
  `cmd_q_back`, `cmds_since_reset`, `last_run_cmd`, and an `awake` flag that
  stands for the timer-interrupt enable bit. Its methods are `mscope_init`
  (the constructor), `queue_stage_cmd`, `st_get_linenumber`,
  `st_wake_up`, `st_go_idle`, `st_reset`, and one run of the dequeue
  interrupt (`Tick`). `Step` is the interrupt's decision as a pure function.

Modelling choices:

- The compile switch `USE_LINE_NUMBERS` becomes the constructor argument
  `IdMode`.
- On the target, `cmd_no`, `cmds_since_reset` and `last_run_cmd` are 16-bit
  `int`s. A line number outside -32768..32767 is therefore stored modulo
  2^16.
- The interrupt body in the source stops partway through. Its retire step
  follows the comments at `grbl/zeiss_stage.c` lines 95-99: record the
  head's `cmd_no` in `last_run_cmd`, clear the head slot, then step
  `cmd_q_front` the same way `cmd_q_back` wraps. That keeps the invariant
  "front equals back exactly when the queue is empty".
- Bus traffic is abstracted. `Tick` takes the reply frame it would read and
  returns the query frames it sends. Instead of a move frame it returns
  `Dispatched(cmd)`.
- The driver queries only the X axis and sends the head command in one
  step. It keeps no per-axis completion state and never masks targets.
- The ready decision uses the intended zero test on the value strtol
  returns, not the driver's 16-bit `resp` (see "## Findings").
- A reply addressed to the driver in which strtol finds no digit at all
  (an empty payload, or one such as "GG") reads as 0, so the head command
  is sent. The model keeps this behaviour (`DigitlessReplyDispatches`).

## Model

| member | source | states |
|---|---|---|
| Ints.Wrap16 | grbl/zeiss_stage.c:126-131 | storing a line number or the incremented counter into the 16-bit `cmd_no`/`cmds_since_reset` keeps the value modulo 2^16, and keeps it unchanged when it fits |
| Ints.Wrap16ZeroIff | grbl/zeiss_stage.c:86 | a value stored in a 16-bit `int` becomes 0 exactly when it is a multiple of 65536; both directions |
| Ints.Saturate32 | grbl/zeiss_stage.c:86 | strtol's result is the parsed value when it fits a 32-bit long, the nearer bound otherwise, and is zero exactly when the parsed value is zero |
| Ints.Wrap16OfMultiple | grbl/zeiss_stage.c:86 | storing any multiple of 65536 in a 16-bit `int` gives 0 |
| HexParse.SkipSpace | grbl/zeiss_stage.c:86 | strtol skips exactly the leading white-space bytes: everything dropped is white space and what remains does not start with white space |
| HexParse.DigitRun | grbl/zeiss_stage.c:86 | the digits strtol converts are the longest prefix made only of hexadecimal digits |
| HexParse.StrToLong | grbl/zeiss_stage.c:86 | `strtol(can_data, NULL, 16)`: skips isspace bytes, takes one optional sign (`IsNegative` when it is '-'), skips `0x`/`0X` only when a hex digit follows, converts the longest hex-digit run (`Digits`), negates on '-', saturates to 32 bits; the result is 0 when no digit is found, 0 exactly when the digit value is 0, never positive after '-' and never negative otherwise |
| HexParse.HexPrefixNeedsDigit | grbl/zeiss_stage.c:86 | "0x" or "0X" not followed by a hex digit is not a prefix: only the '0' is converted and the value is 0 |
| HexParse.SignTakenOnce | grbl/zeiss_stage.c:86 | only one sign is accepted: two signs in a row leave no digit to convert and the value is 0 |
| HexParse.ReadyAsWritten | grbl/zeiss_stage.c:86-88 | the driver's test as written: strtol's long is stored in the 16-bit `resp` and `!resp` holds, which is exactly when strtol's value is a multiple of 65536 |
| HexParse.HexValueZeroIff | grbl/zeiss_stage.c:86-88 | a digit string denotes zero exactly when every digit is '0' |
| HexParse.ReadyIffZeroDigits | grbl/zeiss_stage.c:85-88 | a reply counts as "ready" (parsed value 0) exactly when every digit strtol converts, after white space, sign and 0x prefix, is '0'; both directions |
| HexParse.HexValueOfToHex | grbl/zeiss_stage.c:86 | the value of a number's hexadecimal digits is that number |
| HexParse.ParseToHex | grbl/zeiss_stage.c:86 | any non-negative long the controller prints in hexadecimal is read back unchanged by strtol |
| HexParse.HexOf65536 | grbl/zeiss_stage.c:86 | the hexadecimal spelling of 65536 is the five bytes "10000" |
| HexParse.BusyReplyReadAsReady | grbl/zeiss_stage.c:86-88 | as written, a reply whose value is a non-zero multiple of 65536 (such as "10000") is not zero, yet becomes 0 once stored in the 16-bit `resp`, so a not-ready axis is taken as ready |
| CmdRing.Next | grbl/zeiss_stage.c:141-142 | stepping an index by one and resetting it to 0 at CMD_BUFFER_SIZE is adding one modulo 8, and stays in 0..7 |
| CmdRing.Resident | grbl/zeiss_stage.c:17-19 | the queued commands are the (back - front) mod 8 slots starting at front, oldest first, going round the end of the buffer |
| CmdRing.FullIsNextBackAtFront | grbl/zeiss_stage.c:134 | the full test `back+1 == front or (back+1 == 8 and front == 0)` holds exactly when (back+1) mod 8 == front, for indices in 0..7 |
| CmdRing.ResidentCount | grbl/zeiss_stage.c:18-19 | empty (front == back) exactly when nothing is queued; full exactly when 7 commands are queued; never more than 7 are queued |
| CmdRing.PushResident | grbl/zeiss_stage.c:140-142 | on a non-full queue, writing slot back and stepping back appends exactly that command to the queue |
| CmdRing.PopResident | grbl/zeiss_stage.c:95-99 | on a non-empty queue, slot front holds the oldest command; clearing it and stepping front removes exactly that command |
| ZeissStage.ForDriver | grbl/zeiss_stage.c:83-84 | a frame is for the driver exactly when the low byte of its id is 13, whatever the higher bits are |
| ZeissStage.Step | grbl/zeiss_stage.c:66-88 | a tick is Halted exactly when the interrupt is off and Idle exactly when it is on with an empty queue (no query either way); Ignored exactly when the reply's id low byte is not 13; Busy, carrying strtol's value, exactly when that value is non-zero; otherwise Dispatched, which happens exactly when the converted digits are all '0', and the command sent is the head |
| ZeissStage.DigitlessReplyDispatches | grbl/zeiss_stage.c:83-88 | a reply for the driver in which strtol finds no digit reads as 0, so the head command is sent |
| ZeissStage.NarrowedReplyKeepsHead | grbl/zeiss_stage.c:86-88 | a reply worth a non-zero multiple of 65536 passes the driver's 16-bit test but leaves the head queued under the model's zero test |
| ZeissStage.Stage.constructor | grbl/zeiss_stage.c:36-41 | initial state: counter and last-run id 0, every slot zeroed, front == back == 0 so the queue is empty, interrupt not enabled |
| ZeissStage.Stage.Enqueue | grbl/zeiss_stage.c:107-143 | on a non-full queue the command (targets x, y, f from target[0..2], speed from the feed rate) goes into slot back and is appended to the queue; its id is the line number, or the old counter, which then steps by one; back advances modulo 8; front, the other slots and the last-run id are unchanged |
| ZeissStage.Stage.GetLineNumber | grbl/zeiss_stage.c:154-157 | returns the id of the command retired last and changes nothing |
| ZeissStage.Stage.WakeUp | grbl/zeiss_stage.c:161-164 | enables the dequeue interrupt and changes nothing else |
| ZeissStage.Stage.GoIdle | grbl/zeiss_stage.c:167-170 | disables the dequeue interrupt and changes nothing else |
| ZeissStage.Stage.Reset | grbl/zeiss_stage.c:173-185 | halts the interrupt, zeroes every slot, sets front == back == 0 so the queue is empty, restarts the counter at 0 in counter mode, and keeps the last retired id |
| ZeissStage.Stage.Tick | grbl/zeiss_stage.c:66-100 | the tick's outcome is Step's decision on the old head; it sends the "Xt" query to 0x72 exactly when a command is queued and the interrupt is enabled; on dispatch it retires the oldest command (FIFO), records its id, zeroes its slot and advances front modulo 8; otherwise no state changes; back never changes |

## Findings

| source | as written | input that shows it | evidently intended | confidence | as-written member | corrected member |
|---|---|---|---|---|---|---|
| grbl/zeiss_stage.c:86-88 | the 32-bit result of `strtol` is stored in a 16-bit `int resp` before the zero test, so any multiple of 65536 reads as ready | reply payload "10000" parses to 65536 and is stored as 0, so the head command is sent although the reply is not zero | the axis counts as ready exactly when the reply's value is zero | medium (assumes the AVR's 16-bit `int`); not executed | HexParse.BusyReplyReadAsReady | HexParse.ReadyIffZeroDigits |

## Left out

- CAN bus I/O is not modelled: the `CAN.begin` retry loop, the `xm1`/`ym1` initialisation frames, `sendMsgBuf`, `checkReceive`, `readMsgBuf` and `getCanId`. These are foreign library calls. `Tick` takes the reply as a parameter and returns the frames it sends.
- Step: dispatches on `AxisReady`, the intended zero test. The driver's 16-bit `resp` (line 86) also dispatches on a reply worth a non-zero multiple of 65536, such as "10000" (see "## Findings" and `NarrowedReplyKeepsHead`).
- Tick: its outcome is Step's, so it keeps the head on such a reply where the driver would send it.
- Tick: handles one reply frame per run. The source drains every available frame in a loop (lines 81-82). Where its retire step would sit in that loop is not written.
- Tick: the move frame is not encoded. Its `sprintf` at lines 89-90 is malformed, so the outcome `Dispatched(cmd)` stands for "the head command was sent".
- Tick: the wait for a reply (lines 78-80) is left out; the reply is given.
- Enqueue: the dwell while the queue is full (lines 134-139) becomes the precondition that the queue is not full. That dwell only returns once the interrupt retires a command, and that concurrency is not modelled.
- Enqueue: incrementing the counter past 32767 is signed overflow in C. The model wraps to -32768.
- Enqueue: the float-to-long conversion of the targets and the feed rate is not modelled. Targets and feed rate are integers.
- The timer registers `OCR0A` and `TIMSK0` are not modelled. Enabling and disabling the interrupt is the `awake` flag.
- Interleavings of the interrupt with `queue_stage_cmd` are not modelled. The operations run one at a time.
- `mscope_available`, set in `mscope_init`, is not declared in this file and is not part of this model.
- In line-number mode, `mscope_init` still assigns `cmds_since_reset`, which is then undeclared. The model keeps the field in both modes and leaves it alone in line-number mode.
- The NUL written at `can_data[len]` (line 85) falls one byte past the 8-byte buffer when the reply is 8 bytes long. The model parses the reply bytes directly, and any NUL byte ends the digits anyway.
- The commented-out speed and acceleration setup (lines 50-56) is not modelled.

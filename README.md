# PiFace stepper focuser, modelled in Dafny

This project models the motion core of the PiFace focuser driver
(`piface_focuser.cpp`, an INDI focuser driver for a unipolar stepper motor on
an MCP23S17 I/O expander). It covers how absolute, relative and timed focus
requests become register writes: the bounds check, the choice of direction,
the backlash pre-roll on reversal, the phase sequencer's stepping loop, abort,
the connect and disconnect register sequences, and the switch handlers built
on the absolute move (port lock, reset from zero, preset goto).

The driver object is the class `Focuser.PiFaceFocuser`. Its fields are:

- the tracked position;
- the last direction;
- the phase cursor `step_index`;
- backlash, step delay, motor polarity, selected port, parking, the
  connection state and the three presets.

A ghost log records every `mcp23s17_write_reg` call as a `(register, value)`
entry, in order. The stepping routine, the three moves, the reset and preset
switches and the parking move on disconnect are proved to have exactly the
effect, on the state and on the log, that a function of module `Motion`
defines for them; the lemmas beside those functions state what the driver
promises. Abort, connect, the port switch, the per-step write and the setters
state their effect on the state and the log directly in their contracts.

Modules:

- `Mcp23s17`: the expander's registers and the phase-byte packing, as
  bit-vector operations on the driver's `int` accumulator.
- `Phases`: the phase cursor, which wraps through 0..8, and the phase writes of
  n iterations. It also holds the driver's literal phase tables.
- `Motion`: the move logic as pure functions over `MotorState` (position,
  direction, cursor) and `MotorConfig` (phase table, port, backlash).
- `Focuser`: the class, with its stepping loop and move methods.

Where the code does something its comments or property labels do not
suggest, the model follows the code:

- **The direction-dependent phase tables are dead code.** The four literal
  tables (lines 518-543) are declared in inner blocks. They shadow the
  uninitialised outer `step_states`, which is what the loop reads. So no table
  is chosen by direction and polarity. The model reads an abstract 8-entry
  table (`stepStates`, given to the constructor).
  - `Phases.SelectTable` models the intended selection separately.
  - The motor-direction switch changes nothing a move does.
- **The backlash pre-roll moves the tracked position.** The main tick count is
  computed after it. A reversal from 100 to 50 with backlash 5 therefore takes
  5 + 45 steps, not 5 + 50, and still ends at 50.
  - When the backlash exceeds the distance, the move overshoots by
    2 * (backlash - distance). It can end outside [0, 20000].
- **The cursor can rest at 8 between calls.** It is reset only just before a
  read, so it is not always below 8.
- **Abort writes 0xf0 then 0x00 to the selected register on either port.**
  There is no per-port nibble adjustment.

## Model

| member | source | states |
|---|---|---|
| `Mcp23s17.LowNibble` | piface_focuser.cpp:565-568 | `value & 0xf` of a C int: the result equals 0xf masked onto the low byte of the value's two's-complement pattern, is below 16, and is the value's non-negative remainder modulo 16, negative values included (via `Mcp23s17.LowByteMask`) |
| `Mcp23s17.LowByteMask` | piface_focuser.cpp:565-568 | masking the low byte (v mod 256) of a value's two's-complement pattern with 0xf gives v mod 16 |
| `Mcp23s17.PhasePayload` | piface_focuser.cpp:561-569 | every phase byte fits in 0..255. On port A the code is the high nibble and the low nibble is clear. On port B the high nibble is clear and the low nibble is the code inverted (byte + code = 15) |
| `Mcp23s17.PackHighNibble` | piface_focuser.cpp:562-565 | with the low nibble clear, the port-A update `(p & 0x0f) OR ((v & 0xf) << 4)` yields the port-A phase byte and keeps the low nibble clear |
| `Mcp23s17.PackLowNibble` | piface_focuser.cpp:566-568 | with the high nibble clear, the port-B update `(p & 0xf0) OR ((v & 0xf) ^ 0xf)` yields the port-B phase byte and keeps the high nibble clear |
| `Mcp23s17.Accumulate` | piface_focuser.cpp:561-569 | starting from 0x00, the accumulator carries nothing over from earlier steps: each update gives exactly the phase byte of the new code, and the unused nibble stays clear |
| `Phases.ReadIndex` | piface_focuser.cpp:555-558 | every index the loop reads the table at is in 0..7 |
| `Phases.Cursor` | piface_focuser.cpp:555-559 | the cursor stays within 0..8 whatever the number of reads |
| `Phases.CursorClosedForm` | piface_focuser.cpp:555-559 | after n >= 1 reads from cursor c, the cursor rests at (c + n - 1) mod 8 + 1 (in 1..8), and the next read is at (c + n) mod 8 |
| `Phases.CursorCompose` | piface_focuser.cpp:555-559 | n1 reads then n2 reads leave the cursor where n1 + n2 reads do: nothing resets it between calls |
| `Phases.PhaseWrites` | piface_focuser.cpp:545-577 | the phase writes of n loop iterations from cursor c, one write per iteration (length n), each to the selected GPIO register with the phase byte of the entry read at the cursor; `Phases.PhaseWritesAt` gives the writes in closed form |
| `Phases.PhaseWritesAt` | piface_focuser.cpp:545-577 | n iterations write exactly n entries, all to the selected GPIO register. The j-th carries the phase byte of table entry (c + j) mod 8, and every byte fits with the unused nibble clear |
| `Phases.PhaseWritesCompose` | piface_focuser.cpp:545-577 | the writes of two runs of n1 and n2 iterations concatenate to those of one run of n1 + n2: phase order continues across calls and direction changes |
| `Phases.SelectTable` | piface_focuser.cpp:518-543 | the intended (dead) table selection gives an 8-entry table of 4-bit codes for every direction and polarity |
| `Phases.SelectTableSymmetry` | piface_focuser.cpp:518-543 | outward+reversed uses the inward+normal table and outward+normal the inward+reversed one. Flipping direction and polarity together keeps the table; flipping one switches it |
| `Phases.TablesReversed` | piface_focuser.cpp:523-528 | the "clockwise in" table is the "clockwise out" table read backwards |
| `Phases.HalfStepTables` | piface_focuser.cpp:523-541 | in every table, each code differs from the next one (cyclically) in exactly one coil bit |
| `Motion.Run` | piface_focuser.cpp:545-588 | one call of the stepping routine: max(steps, 0) steps in the stored direction, their phase writes and the coast write; the cursor stays within 0..8 (`Wf` is preserved). `Motion.RunTrace` spells out the result |
| `Motion.RunTrace` | piface_focuser.cpp:545-588 | one stepping call makes n = max(steps, 0) steps. Position changes by +n outward or -n inward, using the stored direction, which it keeps. The next read is at (c + n) mod 8. The log gains exactly n phase writes with the j-th for entry (c + j) mod 8, then one coast write. A non-positive count writes only the coast |
| `Motion.MoveAbs` | piface_focuser.cpp:457-509 | the absolute move: Alert for an out-of-range target, Ok with nothing written at the target, otherwise the new direction, the pre-roll when it triggers, and the main run of abs(target - position after pre-roll) steps; the cursor stays within 0..8. The lemmas below characterise it |
| `Motion.MoveAbsRejects` | piface_focuser.cpp:459-463 | a move returns Alert exactly when the target is outside [0, 20000]. Then it writes nothing and position, direction and cursor are unchanged |
| `Motion.MoveAbsNoOp` | piface_focuser.cpp:459-469 | a move writes nothing exactly when it is refused or the focuser is already at the target. Then the state is unchanged, and an in-range no-op returns Ok |
| `Motion.MoveAbsDirection` | piface_focuser.cpp:476-487 | an in-range move that goes somewhere returns Ok, and its direction is outward exactly when target > position |
| `Motion.MoveAbsUnfold` | piface_focuser.cpp:476-501 | an in-range move that goes somewhere is k pre-roll steps then n main steps, both in the new direction. The pre-roll happens exactly when the direction reverses, position != 0 and backlash != 0, and without it there are no pre-roll writes |
| `Motion.MainStepsDistance` | piface_focuser.cpp:491-498 | the main tick count is abs(distance - pre-roll steps), because it is measured after the pre-roll |
| `Motion.MoveAbsTrace` | piface_focuser.cpp:489-501 | with a pre-roll, the trace is k phase writes, a coast, n phase writes and a coast (length k + n + 2, coast at index k). Without the middle coast, the phase writes are one cyclic run of k + n table reads. The cursor ends where that run ends |
| `Motion.MoveAbsFinalPos` | piface_focuser.cpp:489-501 | an in-range move ends at the target when the pre-roll is at most the distance, and otherwise 2 * (backlash - distance) beyond it. It ends at the target exactly when there is no pre-roll or backlash <= abs(target - start) |
| `Motion.MoveAbsIdempotent` | piface_focuser.cpp:465-469 | when the move reaches its target, repeating it returns Ok, writes nothing and changes nothing |
| `Motion.FirstMoveFromZero` | piface_focuser.cpp:489-501 | from position 0 there is no pre-roll: a move to 100 is 100 outward phase writes and a coast, ending at 100 facing outward |
| `Motion.ReversalWithBacklash` | piface_focuser.cpp:489-501 | from 100 facing outward with backlash 5, a move to 50 is 5 inward phase writes, a coast, 45 phase writes and a coast, ending at 50 facing inward |
| `Motion.MoveRel` | piface_focuser.cpp:451-455 | the relative move: the absolute move to position + ticks (inward negated); the cursor stays within 0..8 |
| `Motion.MoveRelSemantics` | piface_focuser.cpp:451-455 | a relative move is refused exactly when position ± ticks is out of range, and zero ticks changes nothing. Positive ticks move in the requested direction and negative ticks in the opposite one. A positive move with no pre-roll, or with backlash <= ticks, ends exactly at the requested target |
| `Motion.TimedTicks` | piface_focuser.cpp:446 | `(int)(duration / delay)` truncates toward zero: abs(t) * delay <= abs(duration) < (abs(t) + 1) * delay, and t has the sign of the duration |
| `Motion.TimedTicksSign` | piface_focuser.cpp:446 | a duration shorter than one delay gives 0 ticks; a positive duration of at least one delay gives at least one tick |
| `Motion.MoveTimed` | piface_focuser.cpp:444-448 | the timed move: the relative move by the truncated duration / delay ticks, the speed unused; the cursor stays within 0..8 |
| `Motion.MoveTimedSemantics` | piface_focuser.cpp:444-448 | a timed move shorter than one delay writes nothing and changes nothing. A longer one in range moves in the requested direction |
| `Motion.ResetFromZero` | piface_focuser.cpp:340-353 | the reset switch: only when on and at position 0, the position becomes 200 and the absolute move to 0 follows; the cursor stays within 0..8 |
| `Motion.ResetDrivesHome` | piface_focuser.cpp:340-353 | reset does nothing unless it is on and the focuser is at 0. Otherwise it sets 200 and moves to 0. It ends at 0 facing inward when the last direction was inward or the backlash is at most 200. Without a pre-roll it writes exactly 200 phase writes and a coast |
| `Motion.MaybeMove` | piface_focuser.cpp:319-329 | one preset branch: the absolute move to the preset when its switch is on, else nothing; the cursor stays within 0..8 |
| `Motion.GotoPresets` | piface_focuser.cpp:315-337 | the preset goto: the three branches in order, each starting from the state the previous one left, with their writes concatenated; the cursor stays within 0..8 |
| `Motion.GotoOnePreset` | piface_focuser.cpp:315-337 | with exactly one preset switch on, the goto is that preset's absolute move; with none on, it does nothing |
| `Focuser.PiFaceFocuser.constructor` | piface_focuser.cpp:155-201 | the initProperties defaults: position 0, outward, cursor 0, backlash 0, delay 2 ms, normal polarity, port A, parking on, presets 0, and an empty log |
| `Focuser.PiFaceFocuser.StepperMotor` | piface_focuser.cpp:511-591 | the stepping loop, proved against `Motion.Run`: its new position, direction, cursor and appended writes are exactly those of `Run`, and the cursor stays within 0..8 |
| `Focuser.PiFaceFocuser.WritePhase` | piface_focuser.cpp:561-577 | one iteration's accumulator update and register write: the new accumulator is the phase byte with its unused nibble clear, and exactly that byte is appended for the selected GPIO register |
| `Focuser.PiFaceFocuser.MoveAbsFocuser` | piface_focuser.cpp:457-509 | status, new state and appended writes are exactly `Motion.MoveAbs`'s. It returns Alert exactly for an out-of-range target, and then changes nothing |
| `Focuser.PiFaceFocuser.MoveRelFocuser` | piface_focuser.cpp:451-455 | status, new state and appended writes are exactly `Motion.MoveRel`'s |
| `Focuser.PiFaceFocuser.MoveFocuser` | piface_focuser.cpp:444-448 | status, new state and appended writes are exactly `Motion.MoveTimed`'s with the current step delay; the speed is ignored |
| `Focuser.PiFaceFocuser.AbortFocuser` | piface_focuser.cpp:592-613 | appends exactly [0xf0, 0x00] for the selected GPIO register, whichever port, returns true and leaves position, direction and cursor unchanged |
| `Focuser.PiFaceFocuser.Connect` | piface_focuser.cpp:95-134 | if the device fails to open, it returns false and writes nothing. Otherwise it appends IOCON, then all-outputs to the selected port's IODIR, then pull-ups off to its GPPU, returns true and records the connection |
| `Focuser.PiFaceFocuser.Disconnect` | piface_focuser.cpp:136-150 | with parking on, it first does exactly the absolute move to 0 whatever its status; with parking off, nothing moves. Either way it returns true and records the disconnection |
| `Focuser.PiFaceFocuser.SelectPort` | piface_focuser.cpp:380-403 | a port change is refused, returning false with the port unchanged, exactly while connected. Otherwise the requested port is selected |
| `Focuser.PiFaceFocuser.ResetSwitch` | piface_focuser.cpp:340-353 | new state and appended writes are exactly `Motion.ResetFromZero`'s |
| `Focuser.PiFaceFocuser.GotoPresetSwitch` | piface_focuser.cpp:315-337 | new state and appended writes are exactly `Motion.GotoPresets`'s: the three branches in order, each an absolute move to its preset when its switch is on |
| `Focuser.PiFaceFocuser.SetDelay` | piface_focuser.cpp:287-294 | a delay is accepted exactly when it is in 1..100 ms and then stored; otherwise the delay is unchanged |
| `Focuser.PiFaceFocuser.SetBacklash` | piface_focuser.cpp:296-303 | a backlash is accepted exactly when it is in 0..100 steps and then stored; otherwise it is unchanged |
| `Focuser.PiFaceFocuser.SetPreset` | piface_focuser.cpp:189-191 | a preset is accepted exactly when it lies in [0, 20000] and then replaces only that preset; otherwise the presets are unchanged |
| `Focuser.PiFaceFocuser.SetParking` | piface_focuser.cpp:356-365 | the parking switch only records its setting |
| `Focuser.PiFaceFocuser.SetReversed` | piface_focuser.cpp:368-377 | the motor-direction switch only records its setting |

The constants of `Motion` follow the source:

- `MaxSteps` is 20000 (line 32), the position maximum set at line 186.
- `ResetPos` is `MAX_STEPS/100` (line 346).

## Left out

- INDI property plumbing is not modelled: filling properties, IDSetNumber / IDMessage notifications, defining and deleting properties, updateProperties, ISGetProperties and the global dispatch functions. The notifications only report state.
- The number handlers for absolute and relative position (lines 256-285) are not modelled. They are framework wiring around the moves modelled here. The absolute handler also overwrites the tracked position with the requested value after a successful move.
- The mcp23s17 library is not part of this model:
  - opening the device is the `openOk` parameter of `Connect`;
  - the IOCON value ORed from the library's flag macros (lines 107-113) is the unspecified constant `Mcp23s17.IoConfig`;
  - `close()` on disconnect is not logged;
  - each register write is one log entry, with the C `int` payload recorded as its value.
- Step timing (`usleep`, line 579) is not modelled; the step delay only enters `MoveFocuser`'s tick count.
- saveConfigItems (lines 429-442) is file I/O and is not modelled.
- Position, backlash, delay and presets are doubles in the driver. They are assumed to hold whole numbers (each property's step is 1, or 200 for the position and presets) and are modelled as integers, so `(int)` conversions are exact. A client can still send a fractional value: the absolute-position handler stores the raw double as the tracked position after a move (line 262), and nothing rounds backlash or delay. Fractional values are not modelled.
- Overflow of the C `int` target and tick computations is not modelled. All values come from properties bounded well inside 32 bits.
- The commented-out abort handler (lines 405-425) is not modelled. There is no concurrency: abort is modelled as a plain sequential call, so it cannot interrupt a running move.
- The uninitialised `step_states` array the loop reads is taken to hold the same 8 values on every call, given when the object is created. C leaves its contents indeterminate on each call.
- `StepperMotor`'s return value (always 0) is never used and is not modelled.
- The framework's handling of the connection state and of preset number updates is not part of the source. `connected` is set by a successful `Connect` and cleared by `Disconnect`. Presets and number settings are assumed to be range-checked as their property ranges say.

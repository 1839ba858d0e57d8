# chip-fa core in Dafny

A model of the core of chip-fa, a CHIP-8 emulator written in Go, with proofs
about it. It covers three parts.

- **CPU.** The machine state, `Boot`, `LoadROM`, and one `DoCycle`. A cycle
  fetches the big-endian word at pc, decodes it through the nested opcode
  switch, runs the handler, and counts the delay timer down. Of the handlers,
  only ANNN (`doANNN`) is modelled. Every other handler is an opaque
  transition passed in as a `Handler` argument.
- **Emulator host.** The per-frame `Update`:
  - key scan and the keypad mapping;
  - the pause gate, including the "0"/"KP0" debugger key;
  - the sound-timer and beep-counter block;
  - the cycle itself.

  It also covers the index-to-pixel mapping of `Draw`, and the callbacks that
  `createDebugger` hands to the debugger shell, including the memory view
  around pc.
- **Debugger shell.** The range checks of `sv` and `st`, the byte pairing of
  the `iv` (instruction view) command, and `buildHorizontalTable`, which lays
  out the `register` and `timer` tables.

Modules:

- `Results` (`results.dfy`): `Result`, `Option` and the `Fault` a Go `panic`
  becomes. An unknown opcode, an oversized ROM and an out-of-range array index
  are each an `Err`. The one exception is `Boot`, which requires the fontset
  to fit in memory (the Go fontset is a fixed 80-byte table, so its copy
  loop never indexes past the end).
- `Decoder` (`decoder.dfy`): `Decode`, which follows the switch of `DoCycle`
  branch for branch. It also has a separate opcode table (`GroupOf`, `LowOf`,
  `MiddleOf`, `Matches`), and lemmas proving that the switch and the table
  agree.
- `Cpu` (`cpu.dfy`): `State`, `Fetch`, `DoANNN`, `DoCycle`, `Boot`, `LoadRom`.
- `Debugger` (`debugger.dfy`): the shell's pure helpers.
- `Emulator` (`emulator.dfy`): `Update`, `Draw` and the callbacks.

Modelling choices:

- The Go fixed-width integers are Dafny bit-vectors (`bv8`, `bv16`). The
  16-bit wrap-around of pc is therefore kept.
- The `uint8` timers are the int subtype `Byte`.
- Host inputs become parameters:
  - the set of pressed key names;
  - the parsed command arguments, as `Option<bv8>`;
  - the ROM bytes after the file has been read;
  - the fontset bytes.
- Audio output becomes a list of `PlayBeep`/`PauseBeep` events.

## Model

| member | source | states |
|---|---|---|
| Cpu.Zero | emulator/main.go:180 | `new(cpu.CPU)` gives a machine with every field at its zero value: memory, registers, I, pc, screen, timers, stack, stack pointer, keypad, and a cleared draw flag |
| Cpu.Boot | cpu/main.go:48-58 | pc becomes 0x200; the fontset occupies addresses 0..len-1; every other address and every other field is unchanged |
| Cpu.LoadRom | cpu/main.go:60-74 | a ROM longer than 3232 bytes is refused with a `RomTooLarge` fault, and nothing else is; otherwise byte i lands at 0x200+i; the addresses below 0x200 and from 0x200+len on (in particular from 0xEA0 on) keep their contents; no other field changes |
| Cpu.Start | emulator/main.go:178-184 | a zeroed CPU after Boot and LoadROM has pc 0x200, the fontset at the bottom, the ROM from 0x200 and zeros in every other byte of memory; registers, I, screen, timers, stack, stack pointer and keypad are all zero and the draw flag is clear; it fails exactly for an oversized ROM |
| Cpu.Join | cpu/main.go:92 | the fetched word is worth 256 times the byte at pc plus the byte at pc+1: `hi<<8 \| lo` loses nothing |
| Cpu.JoinThenSplit | cpu/main.go:92 | the high/low byte combination `hi<<8 \| lo` is undone by taking the word's high and low byte |
| Cpu.SplitThenJoin | cpu/main.go:92 | every 16-bit word is the combination of its high and low byte |
| Cpu.Fetch | cpu/main.go:92 | the fetch succeeds exactly when pc+1 is inside the 4096-byte memory; the word's high byte is Memory[pc] and its low byte Memory[pc+1]; otherwise the fault names an address at or past 4096 |
| Decoder.Decode | cpu/main.go:105-263 | a decoded instruction carries the word it was decoded from; a rejected word yields the unknown-opcode fault naming that word |
| Decoder.DecodeAgreesWithPatterns | cpu/main.go:105-263 | the switch selects handler k for a word exactly when the word fits k's row of the opcode table (fixed top nibble, fixed bottom nibble where the switch checks one, fixed bits 4-7 for FX15/FX55/FX65) |
| Decoder.DecodeMatchesPattern | cpu/main.go:105-263 | every accepted word fits the table row of the handler it is dispatched to |
| Decoder.PatternDecodes | cpu/main.go:105-263 | every word fitting a table row is dispatched to that row's handler |
| Decoder.DecodeRejectsExactlyUnmatched | cpu/main.go:105-263 | a word panics in the decoder exactly when no table row fits it, and the panic names the word |
| Decoder.PatternsAreDisjoint | cpu/main.go:105-263 | no word fits two rows of the table: dispatch is unambiguous |
| Decoder.TopNibbleOnlyGroups | cpu/main.go:122-200 | groups 1-7 and 9-D never reject a word, and the handler depends on the top nibble alone |
| Decoder.TopNibbleOnlyMatches | cpu/main.go:122-200 | on groups 1-7 and 9-D the accepted word fits its handler's row |
| Decoder.SystemGroup | cpu/main.go:106-121 | group 0 accepts exactly bottom nibbles 0, 1 and E, independently of bits 4-11 |
| Decoder.ArithmeticGroup | cpu/main.go:146-178 | group 8 accepts exactly bottom nibbles 0-7 and E |
| Decoder.KeyGroup | cpu/main.go:201-213 | in group E, bottom nibble E selects skip-if-pressed and 1 selects skip-if-not-pressed, and nothing else is accepted |
| Decoder.MiscGroup | cpu/main.go:214-260 | group F accepts bottom nibbles 3, 7, 8, 9, A and E, and bottom nibble 5 only with bits 4-7 equal to 1, 5 or 6 |
| Cpu.DoANNN | cpu/instruction.go:14-17 | I becomes the low twelve bits of the word (so I <= 0xFFF); pc advances by exactly 2 modulo 2^16, strictly when no wrap occurs; no other field changes |
| Cpu.DoANNNIgnoresTopNibble | cpu/instruction.go:15 | two words agreeing on their low twelve bits have the same effect |
| Cpu.DoANNNTwice | cpu/instruction.go:14-17 | ANNN is idempotent on I, and twice moves pc by 4 |
| Cpu.Execute | cpu/main.go:183-185 | an ANNN instruction always succeeds: I becomes NNN, pc moves on by 2 and no other field changes; every other instruction's outcome is that of its handler, which this model leaves opaque |
| Cpu.DecrementDelay | cpu/main.go:267-269 | the delay timer goes down by one when positive, stays at 0 otherwise, and nothing else changes |
| Cpu.DelayCountsDownToZero | cpu/main.go:267-269 | after n cycles' decrements the delay timer is max(0, delay - n), the rest of the state untouched |
| Cpu.DoCycle | cpu/main.go:76-270 | the cycle succeeds exactly when fetch, decode and the handler all succeed; a fetch fault, an unknown opcode or a handler's fault ends the cycle with that same fault; a completed cycle is the handler's result with the delay timer counted down once |
| Cpu.CycleRejectsUnmatchedWord | cpu/main.go:257-262 | a fetched word no table row fits panics, whatever the other handlers do |
| Cpu.CycleOnSetIndex | cpu/main.go:183-185 | a cycle on an ANNN word sets I to NNN, moves pc by 2, counts the delay timer down and changes nothing else |
| Debugger.SetRegisterCommand | debugger/main.go:118-139 | `sv` calls the register setter exactly when both arguments parse and the location is at most 0xF, with those two values; a larger location is refused as out of range |
| Debugger.SetTimerCommand | debugger/main.go:141-163 | `st` calls the timer setter exactly when both arguments parse and the location is 0 or 1; location 0 selects the delay timer; a larger location is refused |
| Debugger.InstructionView | debugger/main.go:225-244 | the view has one entry per byte pair, each the big-endian word of its pair, and exactly the pair starting at byte 120 is marked current |
| Debugger.MaxLength | debugger/main.go:28-34 | the width is at least every cell's length and equals one of them (0 for an empty row) |
| Debugger.Pad | debugger/main.go:41-51 | intended padding: a text shorter than the width is extended with spaces to exactly the width, a longer one is kept |
| Debugger.PadLoopAppendsHalf | debugger/main.go:42-44 | the padding loop as written appends only ceil(d/2) spaces to a text d characters short |
| Debugger.PadAsWrittenFallsShort | debugger/main.go:41-51 | as written, a text d >= 2 characters short stays floor(d/2) characters short |
| Debugger.SegmentWidths | debugger/main.go:35-53 | with intended padding, each header segment is exactly the row's width and each content segment is at least it, both keeping their text as a prefix |
| Debugger.TwoCellTablesAlign | debugger/main.go:26-56 | with intended padding, a table of two-cell rows (the register and timer tables) has header and content lines of equal length |
| Debugger.TableGrowsByRows | debugger/main.go:27-54 | whatever the padding (so for the table as written as well as the intended one), each row appends one tab-ended segment to each line, in row order |
| Debugger.BuildHorizontalTableAsWritten | debugger/main.go:26-56 | the table as the shell builds it; it has no contract of its own: `TableGrowsByRows` (with the as-written padding) gives its one-segment-per-row shape, `PadAsWrittenFallsShort` its short segments, and `AsWrittenTableMisaligns` its misaligned `v0 \| 0xff` row |
| Debugger.AsWrittenTableMisaligns | debugger/main.go:41-53 | the row `v0 \| 0xff` of the register table gives `v0 ` over `0xff` as written, and `v0  ` over `0xff` as intended |
| Emulator.KeypadIndex | emulator/main.go:35-67 | the key switch recognises exactly the sixteen names of the layout table, and every entry it selects is a valid keypad index 0..15 |
| Emulator.KeypadIndexInvertsKeyNames | emulator/main.go:35-67 | the key switch maps exactly the sixteen names 1234/QWER/ASDF/ZXCV to keypad entries 0..15, one each |
| Emulator.KeypadIndexInjective | emulator/main.go:35-67 | no two key names set the same keypad entry |
| Emulator.KeyPhase | emulator/main.go:28-75 | the key loop replaces the keypad by the scan of the pressed keys and changes no other CPU field; the emulator ends paused exactly when it was paused or a debugger is attached and "0"/"KP0" is pressed; beep counter and debugger flag are kept |
| Emulator.ScanKeypad | emulator/main.go:28-67 | after the scan every keypad entry is 0 or 1 |
| Emulator.ScanKeypadReflectsPressedKeys | emulator/main.go:28-67 | entry i is 1 exactly when some pressed key maps to i |
| Emulator.SoundTick | emulator/main.go:89-105 | the sound timer counts down to 0; the beep starts exactly when it goes from 1 to 0 and then has 24 more frames; the beep stops exactly when the counter runs out; otherwise a running counter counts down by one and an idle one stays as it is; the counter stays within 0..24 |
| Emulator.BeepDrains | emulator/main.go:98-104 | a beep with b frames left stops after exactly b frames, once |
| Emulator.OneBeepPerCountdown | emulator/main.go:89-105 | a sound timer set to n from silence gives exactly one start and one stop, n + 24 frames later everything is back at zero |
| Emulator.Update | emulator/main.go:27-109 | when paused (or pausing) only the keypad changes and no cycle runs; otherwise the frame succeeds exactly when the cycle does, a failing cycle's fault is the frame's fault, and its result is the cycle on the scanned, sound-ticked state with the beep events of that tick; the frame ends paused exactly when a debugger is attached and the cycle ran the 0001 breakpoint |
| Emulator.BreakpointStopsForDebugging | emulator/main.go:194-199 | a frame whose word is a breakpoint (top nibble 0, bottom nibble 1, cpu/main.go:112-115) ends paused exactly when a debugger is attached, and then the next frame runs no cycle |
| Emulator.PausedFrameOnlyScansKeys | emulator/main.go:76 | while paused, a frame rescans the keys and nothing else, whatever the handlers do |
| Emulator.PauseKeyNeedsDebugger | emulator/main.go:68-72 | without a debugger, pressing "0" or "KP0" changes nothing |
| Emulator.PauseKeyPausesAtOnce | emulator/main.go:68-76 | with a debugger, the pause key pauses in the same frame, before any cycle |
| Emulator.FrameOnSetIndex | emulator/main.go:89-106 | an unpaused frame on an ANNN word counts both timers down by one, sets I to NNN, moves pc by 2, and leaves memory and registers alone |
| Emulator.CoordIndexBijection | emulator/main.go:117 | cell i <-> pixel (i%64, i/64) is a bijection between 0..2047 and the 64x32 grid |
| Emulator.Draw | emulator/main.go:111-119 | the image covers exactly the 64x32 grid; pixel (x, y) is white exactly when screen cell y*64+x is non-zero |
| Emulator.Resume | emulator/main.go:126-131 | resuming reports success exactly when paused, and leaves the emulator unpaused and otherwise unchanged |
| Emulator.Pause | emulator/main.go:132-137 | pausing reports success exactly when running, and leaves the emulator paused and otherwise unchanged |
| Emulator.PauseThenResume | emulator/main.go:126-137 | pausing a running emulator and resuming it succeed and give it back unchanged |
| Emulator.GetRegisters | emulator/main.go:140-141 | the register getter has no contract of its own; `SetRegisterThenGet` and `SetRegisterCommandNeverFaults` show that it reads back what the setter wrote |
| Emulator.GetTimers | emulator/main.go:142-143 | the timer getter has no contract of its own; `SetTimerThenGet` shows that slot 0 is the delay timer and slot 1 the sound timer, each reading back what the setter wrote |
| Emulator.SetRegister | emulator/main.go:144-145 | the setter succeeds exactly for an index below 16 (Go panics otherwise); it writes that register only |
| Emulator.SetRegisterThenGet | emulator/main.go:140-145 | reading the registers after a set shows the value written |
| Emulator.SetTimer | emulator/main.go:146-151 | the flag selects the delay timer, otherwise the sound timer, and only that field changes |
| Emulator.SetTimerThenGet | emulator/main.go:142-151 | reading the timers after a set shows the value in the chosen slot and the other slot unchanged |
| Emulator.SetIndexRegister | emulator/main.go:166-167 | I takes the value and nothing else changes |
| Emulator.SetProgramCounter | emulator/main.go:168-169 | pc takes the value and nothing else changes |
| Emulator.SetProgramCounterThenFetch | emulator/main.go:168-169 | after `spc`, the next fetch reads the word at the new pc |
| Emulator.SetRegisterCommandNeverFaults | debugger/main.go:127-137 | the range check of `sv` keeps the register setter from panicking, and the named register receives the value |
| Emulator.SetTimerCommandSelectsTimer | debugger/main.go:151-161 | `st 0 v` sets the delay timer and `st 1 v` the sound timer, with no fault |
| Emulator.ReadRange | emulator/main.go:171-173 | the loop returns the bytes from low to high when they are inside memory, nothing when low > high or low is past 4096, and panics when it reaches address 4096 |
| Emulator.MemoryView | emulator/main.go:170-174 | with 120 <= pc and pc+121 < 4096 the view is the 242 bytes from pc-120 to pc+121; with pc < 120 the 16-bit bound wraps and the view is empty; with pc+121 >= 4096 and pc <= 4096+120 the loop reaches address 4096 and panics; with pc beyond 4096+120 the view starts past memory and is empty; never more than 242 bytes |
| Emulator.InspectInstructions | debugger/main.go:225-244 | with pc in the range above, `iv` shows 121 words, and the one marked current is the word the next cycle fetches |

## Left out

- Instruction handlers other than ANNN: their bodies (instruction.go) are not part of this model. `DoCycle` takes them as an opaque `Handler` argument.
- CXNN randomness: it lives in a handler, so it is left out with the handlers.
- The body of the 0001 breakpoint handler `do0001`: it is in a file that is not part of this model. `Update` takes it to call `StopForDebuggingCallback` (emulator/main.go:194-199), which pauses the emulator when a debugger is attached; anything else it does to the CPU is left to the opaque `Handler`. The debug-shell goroutine the callback starts is not modelled (concurrency).
- File reading in `LoadROM`, and the `log.Fatal` when it fails: the model takes the ROM's bytes.
- The fontset contents: they are a constant table in a file that is not part of this model. `Boot` takes the bytes as a parameter and requires them to fit in memory; `Start` requires them to fit below 0x200.
- The audio player: its lazy creation, the error `audio.NewPlayer` can return, and the wave generator are foreign code. `Play`/`Pause` calls are modelled as events.
- Ebiten, the window, `Layout`, `SetMaxTPS` and the game loop: host library code. `Update` is one frame, and `Draw` builds a map from pixels to colours instead of writing to an image.
- The iteration over ebiten key codes: modelled as a set of pressed key names. Ebiten's own key naming is outside the model.
- Debugger shell I/O: `ishell`, printing, `strconv.ParseUint` and the `0x` stripping. A parsed argument is an `Option<bv8>`.
- The goroutine started by the pause key: concurrency is not modelled. The pause flag is set in the same frame.
- `ExitCallback` (`os.Exit`): process control, not modelled.
- The `GetSpecialCallback` text and the `cpu` command: pure formatting, not modelled.
- The `si` and `spc` commands' parsing: only the callbacks they reach are modelled.
- The `register` and `timer` commands' `fmt.Sprintf` formatting: only the table layout they feed into `buildHorizontalTable` is modelled.
- The root main.go: an older host loop (no keypad, no sound, no debugger, a hard-coded ROM path) that the emulator package supersedes; not modelled.
- Decoder.Decode: follows the code where it differs from the usual CHIP-8 opcode table. 5XY0 and 9XY0 are accepted whatever their bottom nibble, and FX?5 checks bits 4-7 only for bottom nibble 5.
- Cpu.Fetch: follows the code in not requiring pc to be even.
- Cpu.LoadRom: the `RomTooLarge` fault records the ROM's length. The Go panic message (cpu/main.go:66) names only the 3232-byte maximum; the panic itself is the same.
- Debugger.MaxLength, Debugger.Pad and Debugger.PadLoop: measure strings in characters, where Go's `len` counts UTF-8 bytes. The two agree for the ASCII cells the shell passes (`v%x`, `0x%x`, `Delay`, `Sound`); for non-ASCII text the widths would differ.
- Cpu.DoANNN: cpu/instruction.go:15-16 writes lower-case `indexRegister` and `programCounter`, which the `CPU` struct does not declare. The model takes them to be the struct's `IndexRegister` and `ProgramCounter`.
- Cpu.DoCycle: follows the code in counting the delay timer down once per cycle rather than at 60 Hz. The sound timer is counted down per frame by `Update`.

## Findings

| source | as written | input that shows it | evidently intended | confidence | as-written member | corrected member |
|---|---|---|---|---|---|---|
| debugger/main.go:42-44 | `for i := 0; i < maxLength-len(head); i++ { head += " " }` re-evaluates `maxLength-len(head)` after each append, so it adds only ceil(d/2) of the d missing spaces (the body loop at 48-50 likewise) | the register table row `["v0", "0xff"]`: the header segment is `v0 ` (3 wide) over `0xff` (4 wide): the two lines' segments differ in length before the tab | pad each segment to exactly `maxLength`, so the header and content lines of two-cell tables line up | not executed | Debugger.PadAsWrittenFallsShort, Debugger.AsWrittenTableMisaligns | Debugger.Pad, Debugger.TwoCellTablesAlign |

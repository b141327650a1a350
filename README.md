# CHIP-8 interpreter core, modelled and verified in Dafny

This project models the core of a small CHIP-8 interpreter written in C++. The
core is the `chip8` machine struct, its initialisation, the copy of a program
image into memory and the fetch/decode/execute cycle. The cycle handles the
opcodes 00E0, 00EE, 0NNN, 1NNN, 2NNN, ANNN and DXYN and counts the two timers
down.

The model has two layers:

- A value semantics. `Chip8State.Machine` is one snapshot of every field of
  the struct. `Semantics.Cycle` is one call of `Chip8DoCycle` as a function
  from machine to machine. It fetches a big-endian word, advances `Pc` modulo
  2^16, executes the decoded instruction and counts the timers down.
  `Decoder.Decode` maps the 16-bit word to an `Instruction`. DXYN is the
  nested plotting loop `PlotLines` / `PlotBits` / `PlotPixel`, with the
  collision flag carried along.
- An imperative layer. `Interpreter.Chip8` is a class whose fields are those of
  the struct: arrays for memory, registers, display, stack and keys, and
  mutable fields for the scalars. Its methods update the fields in place with
  the source's loops. Each method is proved to leave exactly the state that
  the value semantics prescribes (`State() == Cycle(old(State())).next` and
  the like).

What the source promises is proved as lemmas about the value semantics, in
module `Properties`:

- DXYN toggles exactly the cells under the sprite's set bits, and VF reports
  whether one of them was lit.
- Drawing a sprite twice restores the display.
- DXYN never reads the old VF.
- Each opcode changes only what it should. 2NNN pushes the return address
  and 00EE pops it.
- A call followed by its return comes back to the instruction after the call.
- Over a run of n cycles the timers count down by one per cycle and stop at
  zero. The buzzer sounds exactly once if the sound timer starts between 1
  and n, and never otherwise.
- Decoding is a bijection onto the canonical instructions.
- Loading a program after initialisation leaves the font intact, and the
  first fetch reads the program's first two bytes.

Modules: `Chip8State` (state.dfy), `Decoder` (decoder.dfy), `Semantics`
(semantics.dfy), `Interpreter` (interpreter.dfy) and `Properties`
(properties.dfy).

Where the code differs from the usual description of CHIP-8, the model
follows the code:

- 00E0 clears the display but does not set `Draw`.
- DXYN does not wrap around the screen edges. It computes
  `X + Row + (Y + Col) * 64` unmasked and indexes the display with it.
- DXYN clears VF before it reads VX and VY, so a coordinate taken from VF is 0.
- Addresses are not masked to 12 bits. `I + Col` and `Pc + 1` index memory
  directly.
- On a second draw of the same sprite, VF is 1 exactly when the sprite covers
  a cell that was dark before the first draw. It is not 1 unconditionally.

## Model

| member | source | states |
|---|---|---|
| Chip8State.InitialMachine | src/chip8.cpp:33-43 | after initialisation every field is zero except the 80 font bytes at address 0 and Pc = 0x200; the state is well formed |
| Chip8State.ZeroMachine | src/chip8.cpp:36 | the memset leaves a well-formed machine with every field 0: scalars, memory, registers, pixels, stack and keys |
| Properties.CycleKeepsShape | src/chip8.h:14-43 | every cycle keeps the arrays at the struct's sizes and the pixels 0 or 1, and moves Sp by at most one within 0..16 |
| Chip8State.LoadedMemory | src/chip8.cpp:63-64 | the program's bytes occupy addresses 0x200 .. 0x200+len-1; every other address keeps its byte |
| Decoder.Family | src/chip8.cpp:86 | `Opcode & 0xF000` selects the family: the word lies in that family's block of 0x1000 words |
| Decoder.Nnn | src/chip8.cpp:109 | `Opcode & 0x0FFF` is the word less a multiple of 0x1000, below 0x1000 |
| Decoder.EncodeDecode | src/chip8.cpp:86-148 | Decode, the two switches: every 16-bit word decodes to a canonical instruction whose encoding is that word again |
| Decoder.DecodeEncode | src/chip8.cpp:86-148 | Decode, the two switches: every canonical instruction decodes back from its encoding, so Decode is a bijection onto the canonical instructions |
| Decoder.NotImplementedFamilies | src/chip8.cpp:145-148 | a word falls to "not yet implemented" exactly when its high nibble is not 0, 1, 2, A or D |
| Semantics.FetchOpcode | src/chip8.cpp:78-79 | the fetched word's high byte is Memory[Pc] and its low byte Memory[Pc+1] |
| Semantics.Advance | src/chip8.cpp:83 | `Pc += 2` gives Pc + 2 modulo 2^16 |
| Properties.SpriteBitMask | src/chip8.cpp:132 | SpriteBit is exactly the test `(Pixel & (0x80 >> Row)) != 0` |
| Semantics.DrawRegisters | src/chip8.cpp:122-124 | the registers DXYN reads its coordinates from: VF is 0 and V0..VE are unchanged |
| Semantics.Toggle | src/chip8.cpp:138 | `^= 1` flips the low bit of the cell and keeps the others |
| Semantics.Location | src/chip8.cpp:134 | the pixel index never reaches 2^16, so its `unsigned short` never truncates |
| Semantics.PlotPixel | src/chip8.cpp:132-139 | one plot keeps the display size and keeps every pixel 0 or 1 |
| Semantics.PlotBits | src/chip8.cpp:130-140 | one sprite line keeps the display size and keeps every pixel 0 or 1 |
| Semantics.PlotLines | src/chip8.cpp:127-141 | a whole sprite keeps the display size and keeps every pixel 0 or 1 |
| Semantics.ExecuteDraw | src/chip8.cpp:120-144 | DXYN leaves a well-formed state |
| Semantics.Execute | src/chip8.cpp:86-149 | every instruction keeps the state well formed, leaves memory, keys and timers alone, and reports "not yet implemented" exactly for unhandled words |
| Semantics.Cycle | src/chip8.cpp:76-166 | one cycle stores the fetched word, keeps memory and keys, counts both timers down, buzzes exactly when the sound timer was 1, and reports exactly the unhandled words |
| Properties.LocationInjective | src/chip8.cpp:134 | two sprite pixels of one draw land on different cells |
| Properties.CoversStep | src/chip8.cpp:127-141 | each step of the nested loops reaches at most one new cell: the current pixel's, when its bit is set, which no earlier pixel reached |
| Properties.PlotLinesPrefix | src/chip8.cpp:127-141 | the nested loops toggle exactly the cells reached by set bits and flag exactly a reached lit cell |
| Properties.PlotWhole | src/chip8.cpp:127-141 | after the loops, a cell under a set bit is toggled and every other cell kept; the collision flag holds exactly when a toggled cell was lit |
| Properties.DrawEffect | src/chip8.cpp:120-144 | DXYN flips each covered pixel between 0 and 1 and keeps the rest; VF is 1 iff a covered pixel was lit, else 0; V0..VE and all other fields are unchanged; Draw is set |
| Properties.DrawTwiceRestores | src/chip8.cpp:120-144 | drawing the same sprite twice restores the display; the second draw sets VF iff the sprite covers a pixel that was dark at the start |
| Properties.DrawIgnoresFlag | src/chip8.cpp:122-124 | the old VF does not affect DXYN, and a coordinate taken from VF reads 0 |
| Properties.AdvanceWraps | src/chip8.cpp:83 | `Pc += 2` adds 2 and wraps past 0xFFFF |
| Properties.CycleAdvancesPc | src/chip8.cpp:83 | after any instruction except a jump, call or return, Pc is just past the fetched word |
| Properties.JumpSetsPc | src/chip8.cpp:107-110 | 1NNN sets Pc to NNN and changes no register, I, memory, stack, display or Draw |
| Properties.SetIndexSetsI | src/chip8.cpp:116-119 | ANNN sets I to NNN, advances Pc, and changes no register, memory, stack, display or Draw |
| Properties.CycleDraws | src/chip8.cpp:120-144 | a cycle on a DXYN word leaves the display and registers that ExecuteDraw gives for the word's X, Y and N nibbles, on the state after the fetch and Pc advance |
| Properties.CallPushes | src/chip8.cpp:111-115 | 2NNN stores the address after the call at Stack[Sp], moves Sp up by one and sets Pc to NNN; registers, I, memory, display and Draw are unchanged |
| Properties.ReturnPops | src/chip8.cpp:98-101 | 00EE moves Sp down by one and sets Pc to the address stored there; stack, registers, I, memory, display and Draw are unchanged |
| Properties.CallThenReturn | src/chip8.cpp:98-115 | 2NNN to an 00EE comes back: Pc is the address after the call, Sp is restored, registers, I and display are unchanged |
| Properties.ClearScreenClears | src/chip8.cpp:92-97 | 00E0 turns every pixel off, leaves Draw as it was, and changes no register, I or stack |
| Properties.IgnoredOpcodes | src/chip8.cpp:102-104 | 0NNN and unhandled words change only the stored opcode, Pc and the timers; only unhandled families are reported |
| Properties.CountDownSteps | src/chip8.cpp:153-156 | one decrement-while-positive followed by n more is n + 1 of them: the timer reaches max(t - n - 1, 0) |
| Properties.BuzzerAtZero | src/chip8.cpp:158-164 | the buzzer is signalled exactly in the step in which a running sound timer reaches zero |
| Properties.RunCountsDown | src/chip8.cpp:151-164 | over n cycles each timer drops by n and stops at 0; the buzzer sounds once iff the sound timer starts in 1..n; memory is never written; the state stays well formed |
| Properties.LoadAfterInitialize | src/chip8.cpp:33-74 | after initialisation and loading, the font and the zeroed interpreter area are intact, the program sits at 0x200, and the first fetch reads its first two bytes |
| Interpreter.Chip8.constructor | src/chip8.h:4-47 | allocates the struct's arrays fresh and leaves the initialised machine |
| Interpreter.Chip8.Initialize | src/chip8.cpp:33-43 | Chip8Initialize leaves exactly InitialMachine |
| Interpreter.Chip8.Clear | src/chip8.cpp:36 | the memset zeroes every field |
| Interpreter.Chip8.LoadFont | src/chip8.cpp:41-42 | the font loop writes the 80 font bytes at address 0 and keeps the rest of memory |
| Interpreter.Chip8.LoadRom | src/chip8.cpp:63-64 | the copy loop leaves exactly LoadedMemory, changes no other field and keeps the machine well formed |
| Interpreter.Chip8.DoCycle | src/chip8.cpp:76-166 | Chip8DoCycle leaves exactly Cycle's next state and reports the same messages |
| Interpreter.Chip8.Dispatch | src/chip8.cpp:86-149 | the switch leaves exactly Execute's state |
| Interpreter.Chip8.DrawSprite | src/chip8.cpp:120-144 | the DXYN loops leave exactly ExecuteDraw's state |
| Interpreter.Chip8.PlotLine | src/chip8.cpp:130-140 | the inner loop leaves the display and VF that PlotBits gives for that line |
| Interpreter.Chip8.TickTimers | src/chip8.cpp:151-164 | each timer counts down once, stopping at 0; the buzzer is reported exactly when the sound timer was 1 |

## Left out

- File handling in Chip8LoadRom (src/chip8.cpp:47-62, 66-73) is I/O. The model takes the file's bytes as a parameter and keeps only the copy loop.
- The "could not open file" failure path belongs to that I/O, so it is not modelled.
- The ncurses `clear()` / `refresh()` calls of 00E0 are terminal output.
- `Chip8DrawGraphics` is terminal output, and the empty `Chip8HandleInput` does nothing.
- The two `printf` messages are modelled as returned flags. `notImplemented` stands for "Not yet implemented" and `buzzer` for "Make buzzer sound!".
- The host loops in src/main.cpp and src/glfw_main.cpp are not part of the model. This includes their pacing of cycles and timers.
- Opcodes that the source does not implement (3XNN through FX65 other than those above) are not modelled. They fall to "not yet implemented", as in the code.
- The `Key` array is zeroed by initialisation like every other field, and the cycle carries it through unchanged, because Chip8DoCycle never reads or writes it.
- The source checks nothing before it indexes its arrays. Each of the following is undefined behaviour in C++, and the model requires its opposite:
  - fetching at Pc = 0xFFF or above;
  - 2NNN with a full stack;
  - 00EE with an empty stack;
  - DXYN reading past the end of memory, or plotting a set bit past the end of the display;
  - a program image larger than 0xE00 bytes.
- Semantics.PlotPixel: a set bit past the end of the display is skipped. This case cannot arise, because ExecuteDraw requires that every set bit lands on the display.
- `DISPLAY_WIDTH` and `DISPLAY_HEIGHT` are macros whose definitions are not part of this model. They are taken as 64 and 32, the dimensions of `Graphics[64 * 32]` and the `* 64` of the location computation.
- The struct is one contiguous block, so an out-of-bounds write could reach a neighbouring field. The class keeps its arrays distinct, and the preconditions above exclude such writes.

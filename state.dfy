/** The CHIP-8 machine state of `struct chip8`, as a value: fixed-size byte
    memory, sixteen 8-bit registers, 16-bit index register and program counter,
    a 64x32 monochrome display, a sixteen-entry return stack, two 8-bit timers,
    the key flags and the redraw flag. */
module Chip8State {

  /** An `unsigned char`. */
  type u8 = x: int | 0 <= x < 0x100

  /** An `unsigned short`. */
  type u16 = x: int | 0 <= x < 0x1_0000

  const MEMORY_SIZE: nat := 0x1000
  /** The interpreter owns the first 512 bytes; programs start here. */
  const PROGRAM_START: nat := 0x200
  /** The most bytes a program can occupy between PROGRAM_START and the end of memory. */
  const MAX_ROM_SIZE: nat := MEMORY_SIZE - PROGRAM_START
  const REGISTER_COUNT: nat := 16
  /** VF, the register that doubles as the flag register. */
  const FLAG: nat := 0xF
  const DISPLAY_WIDTH: nat := 64
  const DISPLAY_HEIGHT: nat := 32
  const DISPLAY_SIZE: nat := DISPLAY_WIDTH * DISPLAY_HEIGHT
  const STACK_DEPTH: nat := 16
  const KEY_COUNT: nat := 16

  /** The sixteen hexadecimal glyphs, five bytes each, copied to address 0. */
  const FONT: seq<u8> := [
    0xF0, 0x90, 0x90, 0x90, 0xF0, // 0
    0x20, 0x60, 0x20, 0x20, 0x70, // 1
    0xF0, 0x10, 0xF0, 0x80, 0xF0, // 2
    0xF0, 0x10, 0xF0, 0x10, 0xF0, // 3
    0x90, 0x90, 0xF0, 0x10, 0x10, // 4
    0xF0, 0x80, 0xF0, 0x10, 0xF0, // 5
    0xF0, 0x80, 0xF0, 0x90, 0xF0, // 6
    0xF0, 0x10, 0x20, 0x40, 0x40, // 7
    0xF0, 0x90, 0xF0, 0x90, 0xF0, // 8
    0xF0, 0x90, 0xF0, 0x10, 0xF0, // 9
    0xF0, 0x90, 0xF0, 0x90, 0x90, // A
    0xE0, 0x90, 0xE0, 0x90, 0xE0, // B
    0xF0, 0x80, 0x80, 0x80, 0xF0, // C
    0xE0, 0x90, 0x90, 0x90, 0xE0, // D
    0xF0, 0x80, 0xF0, 0x80, 0xF0, // E
    0xF0, 0x80, 0xF0, 0x80, 0x80  // F
  ]

  /** One snapshot of every field of the machine. `opcode` is the last
      instruction word fetched; `graphics` holds one byte per pixel, row-major. */
  datatype Machine = Machine(
    opcode: u16,
    memory: seq<u8>,
    i: u16,
    pc: u16,
    v: seq<u8>,
    graphics: seq<u8>,
    stack: seq<u16>,
    sp: u16,
    delayTimer: u8,
    soundTimer: u8,
    key: seq<u8>,
    draw: bool)

  /** Every pixel is off (0) or on (1). */
  predicate Binary(cells: seq<u8>)
  {
    forall k :: 0 <= k < |cells| ==> cells[k] <= 1
  }

  /** The arrays have the sizes the struct declares, the stack pointer stays
      within the sixteen-entry stack, and every pixel is 0 or 1. */
  predicate WellFormed(m: Machine)
  {
    && |m.memory| == MEMORY_SIZE
    && |m.v| == REGISTER_COUNT
    && |m.graphics| == DISPLAY_SIZE
    && |m.stack| == STACK_DEPTH
    && |m.key| == KEY_COUNT
    && m.sp as nat <= STACK_DEPTH
    && Binary(m.graphics)
  }

  /** The struct with every byte zero: a well-formed machine in which every
      scalar, every memory byte, register, pixel, stack entry and key is 0. */
  function ZeroMachine(): (z: Machine)
    ensures WellFormed(z)
    ensures z.pc == 0 && z.i == 0 && z.sp == 0 && z.opcode == 0 && !z.draw
    ensures z.delayTimer == 0 && z.soundTimer == 0
    ensures forall a :: 0 <= a < MEMORY_SIZE ==> z.memory[a] == 0
    ensures forall r :: 0 <= r < REGISTER_COUNT ==> z.v[r] == 0
    ensures forall k :: 0 <= k < DISPLAY_SIZE ==> z.graphics[k] == 0
    ensures forall s :: 0 <= s < STACK_DEPTH ==> z.stack[s] == 0
    ensures forall k :: 0 <= k < KEY_COUNT ==> z.key[k] == 0
  {
    Machine(
      opcode := 0,
      memory := seq(MEMORY_SIZE, _ => 0),
      i := 0,
      pc := 0,
      v := seq(REGISTER_COUNT, _ => 0),
      graphics := seq(DISPLAY_SIZE, _ => 0),
      stack := seq(STACK_DEPTH, _ => 0),
      sp := 0,
      delayTimer := 0,
      soundTimer := 0,
      key := seq(KEY_COUNT, _ => 0),
      draw := false)
  }

  /** The state Chip8Initialize leaves: the zeroed struct with the font at
      address 0 and the program counter at the start of the program area. */
  function InitialMachine(): (m: Machine)
    ensures WellFormed(m)
    ensures m.memory[..|FONT|] == FONT
    ensures forall a :: |FONT| <= a < MEMORY_SIZE ==> m.memory[a] == 0
    ensures m.pc as nat == PROGRAM_START
    ensures m.opcode == 0 && m.i == 0 && m.sp == 0 && m.delayTimer == 0 && m.soundTimer == 0 && !m.draw
    ensures forall r :: 0 <= r < REGISTER_COUNT ==> m.v[r] == 0
    ensures forall k :: 0 <= k < DISPLAY_SIZE ==> m.graphics[k] == 0
    ensures forall s :: 0 <= s < STACK_DEPTH ==> m.stack[s] == 0
    ensures forall k :: 0 <= k < KEY_COUNT ==> m.key[k] == 0
  {
    var zero := ZeroMachine();
    zero.(memory := FONT + zero.memory[|FONT|..], pc := PROGRAM_START as u16)
  }

  /** Memory after a program image has been copied in at PROGRAM_START. */
  function LoadedMemory(memory: seq<u8>, rom: seq<u8>): (r: seq<u8>)
    requires |memory| == MEMORY_SIZE && |rom| <= MAX_ROM_SIZE
    ensures |r| == MEMORY_SIZE
    ensures forall a :: 0 <= a < MEMORY_SIZE ==>
      r[a] == if PROGRAM_START <= a < PROGRAM_START + |rom| then rom[a - PROGRAM_START] else memory[a]
  {
    memory[..PROGRAM_START] + rom + memory[PROGRAM_START + |rom|..]
  }
}

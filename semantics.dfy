/** One step of Chip8DoCycle as a function on Machine values: fetch a
    big-endian instruction word, advance the program counter, execute the
    decoded instruction, then count the timers down. */
module Semantics {
  import opened Chip8State
  import opened Decoder

  // ---------------------------------------------------------------- fetch

  /** Both bytes of the instruction word lie inside memory. */
  predicate CanFetch(m: Machine)
  {
    m.pc as nat + 1 < |m.memory|
  }

  /** `Memory[Pc] << 8 | Memory[Pc + 1]`: the high byte first. */
  function FetchOpcode(m: Machine): (op: u16)
    requires CanFetch(m)
    ensures op / 0x100 == m.memory[m.pc] && op % 0x100 == m.memory[m.pc + 1]
  {
    (m.memory[m.pc] as int) * 0x100 + m.memory[m.pc + 1]
  }

  /** `Pc += 2` on an `unsigned short`: two more, modulo 2^16. */
  function Advance(pc: u16): (next: u16)
    ensures (next - pc - 2) % 0x1_0000 == 0
  {
    (pc + 2) % 0x1_0000
  }

  // ---------------------------------------------------------------- draw

  /** A sprite line is one byte: eight pixels. */
  const SPRITE_WIDTH: nat := 8

  /** Bit k of n, counting from the least significant bit. */
  function BitSet(n: nat, k: nat): bool
  {
    if k == 0 then n % 2 == 1 else BitSet(n / 2, k - 1)
  }

  /** `(Pixel & (0x80 >> bit)) != 0`: bit 0 is the leftmost pixel of a sprite
      line, stored in the most significant bit of the byte. */
  function SpriteBit(pixel: u8, bit: nat): bool
    requires bit < 8
  {
    BitSet(pixel, 7 - bit)
  }

  /** `Graphics[Location] ^= 1`. */
  function Toggle(cell: u8): (r: u8)
    ensures r % 2 != cell % 2 && r / 2 == cell / 2
  {
    if cell % 2 == 0 then cell + 1 else cell - 1
  }

  /** `X + Row + (Y + Col) * 64` with Col the sprite line and Row the bit:
      no wrap-around at the screen edges, and no truncation to 16 bits either,
      since the largest value any registers can produce is far below 0x10000. */
  function Location(x: nat, y: nat, line: nat, bit: nat): (loc: nat)
    ensures x < 0x100 && y < 0x100 && line < 0x10 && bit < 8 ==> loc < 0x1_0000
  {
    x + bit + (y + line) * DISPLAY_WIDTH
  }

  /** Every set bit of one sprite line drawn at (x, y) lands inside the display. */
  predicate LineFits(pixel: u8, x: nat, y: nat, line: nat)
  {
    forall bit :: 0 <= bit < 8 && SpriteBit(pixel, bit) ==> Location(x, y, line, bit) < DISPLAY_SIZE
  }

  /** Every set bit of the sprite drawn at (x, y) lands inside the display. */
  predicate SpriteFits(sprite: seq<u8>, x: nat, y: nat)
  {
    forall line :: 0 <= line < |sprite| ==> LineFits(sprite[line], x, y, line)
  }

  /** The display and the collision flag while a sprite is being drawn. */
  datatype Plotted = Plotted(cells: seq<u8>, collision: bool)

  /** One iteration of the inner loop: if the bit is set, note whether its
      cell is lit and toggle it. A location past the end of the display is
      skipped here; ExecuteDraw is only applied where none occurs (DrawDefined). */
  function PlotPixel(p: Plotted, pixel: u8, x: nat, y: nat, line: nat, bit: nat): (r: Plotted)
    requires bit < 8
    ensures |r.cells| == |p.cells|
    ensures Binary(p.cells) ==> Binary(r.cells)
  {
    var loc := Location(x, y, line, bit);
    if SpriteBit(pixel, bit) && loc < |p.cells| then
      Plotted(p.cells[loc := Toggle(p.cells[loc])], p.collision || p.cells[loc] == 1)
    else p
  }

  /** The inner loop after its first `bits` iterations. */
  function PlotBits(p: Plotted, pixel: u8, x: nat, y: nat, line: nat, bits: nat): (r: Plotted)
    requires bits <= 8
    ensures |r.cells| == |p.cells|
    ensures Binary(p.cells) ==> Binary(r.cells)
  {
    if bits == 0 then p
    else PlotPixel(PlotBits(p, pixel, x, y, line, bits - 1), pixel, x, y, line, bits - 1)
  }

  /** The outer loop after its first `lines` iterations. */
  function PlotLines(p: Plotted, sprite: seq<u8>, x: nat, y: nat, lines: nat): (r: Plotted)
    requires lines <= |sprite|
    ensures |r.cells| == |p.cells|
    ensures Binary(p.cells) ==> Binary(r.cells)
  {
    if lines == 0 then p
    else PlotBits(PlotLines(p, sprite, x, y, lines - 1), sprite[lines - 1], x, y, lines - 1, SPRITE_WIDTH)
  }

  /** The sprite DXYN draws: `height` bytes of memory from I. */
  function Sprite(m: Machine, height: nibble): seq<u8>
    requires m.i as nat + height <= |m.memory|
  {
    m.memory[m.i..m.i as nat + height]
  }

  /** VF is cleared before VX and VY are read, so a coordinate taken from VF is 0. */
  function DrawRegisters(m: Machine): (regs: seq<u8>)
    requires WellFormed(m)
    ensures |regs| == REGISTER_COUNT && regs[FLAG] == 0
    ensures forall r :: 0 <= r < FLAG ==> regs[r] == m.v[r]
  {
    m.v[FLAG := 0]
  }

  /** What DXYN needs of the state: the sprite lies in memory and each of its
      set bits lands on the display. */
  predicate DrawDefined(m: Machine, x: nibble, y: nibble, height: nibble)
    requires WellFormed(m)
  {
    && m.i as nat + height <= |m.memory|
    && SpriteFits(Sprite(m, height), DrawRegisters(m)[x], DrawRegisters(m)[y])
  }

  /** DXYN: XOR-plot the sprite at (VX, VY), VF := collision, request a redraw. */
  function ExecuteDraw(m: Machine, x: nibble, y: nibble, height: nibble): (r: Machine)
    requires WellFormed(m) && DrawDefined(m, x, y, height)
    ensures WellFormed(r)
  {
    var v := DrawRegisters(m);
    var p := PlotLines(Plotted(m.graphics, false), Sprite(m, height), v[x], v[y], height);
    m.(v := v[FLAG := if p.collision then 1 else 0], graphics := p.cells, draw := true)
  }

  // ---------------------------------------------------------------- execute

  /** What an instruction needs of the state; the source checks none of it. */
  predicate Permits(m: Machine, ins: Instruction)
    requires WellFormed(m)
  {
    match ins
    case Return => m.sp > 0
    case Call(_) => m.sp as nat < STACK_DEPTH
    case DrawSprite(x, y, n) => DrawDefined(m, x, y, n)
    case _ => true
  }

  datatype Outcome = Outcome(machine: Machine, notImplemented: bool)

  /** The dispatch of Chip8DoCycle, on a state whose Pc has already advanced. */
  function Execute(m: Machine, ins: Instruction): (r: Outcome)
    requires WellFormed(m) && Permits(m, ins)
    ensures WellFormed(r.machine)
    ensures r.machine.memory == m.memory && r.machine.key == m.key
    ensures r.machine.delayTimer == m.delayTimer && r.machine.soundTimer == m.soundTimer
    ensures r.notImplemented <==> ins.NotImplemented?
  {
    match ins
    case ClearScreen => Outcome(m.(graphics := seq(DISPLAY_SIZE, _ => 0)), false)
    case Return => Outcome(m.(sp := m.sp - 1, pc := m.stack[m.sp - 1]), false)
    case MachineCall(_) => Outcome(m, false)
    case Jump(nnn) => Outcome(m.(pc := nnn), false)
    case Call(nnn) => Outcome(m.(stack := m.stack[m.sp := m.pc], sp := m.sp + 1, pc := nnn), false)
    case SetIndex(nnn) => Outcome(m.(i := nnn), false)
    case DrawSprite(x, y, n) => Outcome(ExecuteDraw(m, x, y, n), false)
    case NotImplemented(_) => Outcome(m, true)
  }

  // ---------------------------------------------------------------- timers

  /** A timer decrements while positive and otherwise stays at zero. */
  function CountDown(t: u8): u8
  {
    if t > 0 then t - 1 else 0
  }

  /** The buzzer is signalled by the step that takes the sound timer from 1 to 0. */
  predicate Buzzes(soundTimer: u8)
  {
    soundTimer == 1
  }

  // ---------------------------------------------------------------- cycle

  datatype Step = Step(next: Machine, notImplemented: bool, buzzer: bool)

  /** What one cycle needs: a well-formed state, an instruction word inside
      memory, and what that instruction needs. */
  predicate CanCycle(m: Machine)
  {
    && WellFormed(m)
    && CanFetch(m)
    && Permits(m, Decode(FetchOpcode(m)))
  }

  /** Chip8DoCycle. */
  function Cycle(m: Machine): (r: Step)
    requires CanCycle(m)
    ensures WellFormed(r.next)
    ensures r.next.opcode == FetchOpcode(m)
    ensures r.next.memory == m.memory && r.next.key == m.key
    ensures r.next.delayTimer == CountDown(m.delayTimer) && r.next.soundTimer == CountDown(m.soundTimer)
    ensures r.buzzer <==> m.soundTimer == 1
    ensures r.notImplemented <==> Decode(FetchOpcode(m)).NotImplemented?
  {
    var op := FetchOpcode(m);
    var fetched := m.(opcode := op, pc := Advance(m.pc));
    var executed := Execute(fetched, Decode(op));
    var timed := executed.machine.(
      delayTimer := CountDown(executed.machine.delayTimer),
      soundTimer := CountDown(executed.machine.soundTimer));
    Step(timed, executed.notImplemented, Buzzes(executed.machine.soundTimer))
  }
}

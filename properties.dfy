/** What the interpreter promises, proved about the value semantics. */
module Properties {
  import opened Chip8State
  import opened Decoder
  import opened Semantics

  // ---------------------------------------------------------------- sprite bits

  /** `0x80 >> bit`: the mask that selects pixel `bit` of a sprite line. */
  function Mask(bit: nat): nat
    requires bit < 8
  {
    [0x80, 0x40, 0x20, 0x10, 0x08, 0x04, 0x02, 0x01][bit]
  }

  function Pow2(k: nat): (r: nat)
    ensures r > 0
  {
    if k == 0 then 1 else 2 * Pow2(k - 1)
  }

  /** The powers of two below a byte's top bit. */
  lemma Pow2Small(k: nat)
    requires k < 7
    ensures Pow2(k) in {1, 2, 4, 8, 16, 32, 64}
  {
    assert Pow2(0) == 1 && Pow2(1) == 2 && Pow2(2) == 4 && Pow2(3) == 8;
    assert Pow2(4) == 16 && Pow2(5) == 32 && Pow2(6) == 64;
  }

  lemma HalveThenDivide(n: nat, d: nat)
    requires d in {1, 2, 4, 8, 16, 32, 64}
    ensures n / 2 / d == n / (2 * d)
  {
  }

  /** BitSet(n, k) is bit k of n, `(n >> k) & 1`, for the bits of a byte. */
  lemma {:induction false} BitSetDiv(n: nat, k: nat)
    requires k < 8
    ensures BitSet(n, k) <==> n / Pow2(k) % 2 == 1
  {
    if k > 0 {
      BitSetDiv(n / 2, k - 1);
      Pow2Small(k - 1);
      HalveThenDivide(n, Pow2(k - 1));
    }
  }

  /** SpriteBit is the test `(Pixel & (0x80 >> bit)) != 0`. */
  lemma SpriteBitMask(pixel: u8, bit: nat)
    requires bit < 8
    ensures SpriteBit(pixel, bit) <==> pixel / Mask(bit) % 2 == 1
  {
    BitSetDiv(pixel, 7 - bit);
    assert Pow2(7 - bit) == Mask(bit) by {
      assert Pow2(0) == 1 && Pow2(1) == 2 && Pow2(2) == 4 && Pow2(3) == 8;
      assert Pow2(4) == 16 && Pow2(5) == 32 && Pow2(6) == 64 && Pow2(7) == 128;
    }
  }

  // ---------------------------------------------------------------- draw

  /** Some set bit of the sprite drawn at (x, y) lands on pixel `loc`. */
  ghost predicate Covers(sprite: seq<u8>, x: nat, y: nat, loc: nat)
  {
    exists line, bit :: 0 <= line < |sprite| && 0 <= bit < 8 && SpriteBit(sprite[line], bit) && Location(x, y, line, bit) == loc
  }

  /** Covers, restricted to the first k sprite pixels in plotting order. */
  ghost predicate CoversBefore(sprite: seq<u8>, x: nat, y: nat, k: nat, loc: nat)
  {
    exists line, bit :: 0 <= line < |sprite| && 0 <= bit < 8 && line * 8 + bit < k && SpriteBit(sprite[line], bit) && Location(x, y, line, bit) == loc
  }

  /** Two sprite pixels never land on the same display cell: without
      wrap-around, a cell determines the line and the bit that reach it. */
  lemma LocationInjective(x: nat, y: nat, line1: nat, bit1: nat, line2: nat, bit2: nat)
    requires bit1 < 8 && bit2 < 8
    requires Location(x, y, line1, bit1) == Location(x, y, line2, bit2)
    ensures line1 == line2 && bit1 == bit2
  {
    assert bit1 - bit2 == (line2 - line1) * DISPLAY_WIDTH;
  }

  /** Pixel (line, bit), number 8 * line + bit in plotting order, is the
      only one that CoversBefore adds at that step, and no earlier pixel
      reached its cell. */
  lemma CoversStep(sprite: seq<u8>, x: nat, y: nat, line: nat, bit: nat)
    requires line < |sprite| && bit < 8
    ensures var k := 8 * line + bit;
      && (forall loc: nat :: CoversBefore(sprite, x, y, k + 1, loc) <==>
            CoversBefore(sprite, x, y, k, loc) || (SpriteBit(sprite[line], bit) && loc == Location(x, y, line, bit)))
      && !CoversBefore(sprite, x, y, k, Location(x, y, line, bit))
  {
    var k := 8 * line + bit;
    var here := Location(x, y, line, bit);
    if CoversBefore(sprite, x, y, k, here) {
      var l, b :| 0 <= l < |sprite| && 0 <= b < 8 && l * 8 + b < k && SpriteBit(sprite[l], b) && Location(x, y, l, b) == here;
      LocationInjective(x, y, l, b, line, bit);
    }
    forall loc: nat | CoversBefore(sprite, x, y, k + 1, loc)
      ensures CoversBefore(sprite, x, y, k, loc) || (SpriteBit(sprite[line], bit) && loc == here)
    {
      var l, b :| 0 <= l < |sprite| && 0 <= b < 8 && l * 8 + b < k + 1 && SpriteBit(sprite[l], b) && Location(x, y, l, b) == loc;
      if l * 8 + b == k {
        assert l == line && b == bit;
      }
    }
  }

  /** The display and collision flag after the first k pixels of a draw, by
      their effect: the cells under a set bit among them are toggled, all
      others kept, and the flag says whether one of the toggled cells was lit
      beforehand. */
  ghost function Prefix(cells: seq<u8>, sprite: seq<u8>, x: nat, y: nat, k: nat): (p: Plotted)
    requires |cells| == DISPLAY_SIZE
    ensures |p.cells| == DISPLAY_SIZE
  {
    Plotted(
      seq(DISPLAY_SIZE, loc requires 0 <= loc < DISPLAY_SIZE =>
        if CoversBefore(sprite, x, y, k, loc) then Toggle(cells[loc]) else cells[loc]),
      exists loc :: 0 <= loc < DISPLAY_SIZE && CoversBefore(sprite, x, y, k, loc) && cells[loc] == 1)
  }

  /** Before the first pixel nothing is toggled and there is no collision. */
  lemma PlotStart(cells: seq<u8>, sprite: seq<u8>, x: nat, y: nat)
    requires |cells| == DISPLAY_SIZE
    ensures Prefix(cells, sprite, x, y, 0) == Plotted(cells, false)
  {
    var p := Prefix(cells, sprite, x, y, 0);
    forall loc | 0 <= loc < DISPLAY_SIZE ensures p.cells[loc] == cells[loc] {
      assert !CoversBefore(sprite, x, y, 0, loc);
    }
    assert p.cells == cells;
  }

  /** Plotting pixel (line, bit), number 8 * line + bit in plotting order,
      extends the prefix by one. */
  lemma PlotPixelStep(cells: seq<u8>, sprite: seq<u8>, x: nat, y: nat, line: nat, bit: nat)
    requires |cells| == DISPLAY_SIZE
    requires line < |sprite| && bit < 8
    ensures PlotPixel(Prefix(cells, sprite, x, y, 8 * line + bit), sprite[line], x, y, line, bit)
         == Prefix(cells, sprite, x, y, 8 * line + bit + 1)
  {
    var k := 8 * line + bit;
    var p, q := Prefix(cells, sprite, x, y, k), Prefix(cells, sprite, x, y, k + 1);
    var r := PlotPixel(p, sprite[line], x, y, line, bit);
    CoversStep(sprite, x, y, line, bit);
    var here := Location(x, y, line, bit);
    if SpriteBit(sprite[line], bit) && here < DISPLAY_SIZE {
      assert CoversBefore(sprite, x, y, k + 1, here);
      assert p.cells[here] == cells[here];
      assert r.cells == q.cells;
    } else {
      assert r.cells == q.cells;
    }
  }

  /** The states a draw passes through, R(line, bit) before pixel (line, bit):
      each pixel moves R one step along its line, and the end of a line is
      the start of the next. */
  ghost predicate Chain(R: (nat, nat) -> Plotted, sprite: seq<u8>, x: nat, y: nat)
  {
    && (forall line, bit :: 0 <= line < |sprite| && 0 <= bit < 8 ==>
          PlotPixel(R(line, bit), sprite[line], x, y, line, bit) == R(line, bit + 1))
    && (forall line :: 0 <= line < |sprite| ==> R(line, 8) == R(line + 1, 0))
  }

  /** The inner loop follows the chain along one line. */
  lemma {:induction false} BitsChain(R: (nat, nat) -> Plotted, sprite: seq<u8>, x: nat, y: nat, line: nat, bits: nat)
    requires Chain(R, sprite, x, y) && line < |sprite| && bits <= 8
    ensures PlotBits(R(line, 0), sprite[line], x, y, line, bits) == R(line, bits)
  {
    if bits > 0 {
      BitsChain(R, sprite, x, y, line, bits - 1);
    }
  }

  /** The outer loop follows the chain from line to line. */
  lemma {:induction false} LinesChain(R: (nat, nat) -> Plotted, sprite: seq<u8>, x: nat, y: nat, lines: nat)
    requires Chain(R, sprite, x, y) && lines <= |sprite|
    ensures PlotLines(R(0, 0), sprite, x, y, lines) == R(lines, 0)
  {
    if lines > 0 {
      LinesChain(R, sprite, x, y, lines - 1);
      BitsChain(R, sprite, x, y, lines - 1, SPRITE_WIDTH);
    }
  }

  /** Drawing a whole sprite reaches the prefix of all its pixels. */
  lemma PlotLinesPrefix(cells: seq<u8>, sprite: seq<u8>, x: nat, y: nat)
    requires |cells| == DISPLAY_SIZE
    ensures PlotLines(Plotted(cells, false), sprite, x, y, |sprite|) == Prefix(cells, sprite, x, y, 8 * |sprite|)
  {
    var R := (line: nat, bit: nat) => Prefix(cells, sprite, x, y, 8 * line + bit);
    forall line, bit | 0 <= line < |sprite| && 0 <= bit < 8
      ensures PlotPixel(R(line, bit), sprite[line], x, y, line, bit) == R(line, bit + 1)
    {
      PlotPixelStep(cells, sprite, x, y, line, bit);
    }
    PlotStart(cells, sprite, x, y);
    LinesChain(R, sprite, x, y, |sprite|);
  }

  /** The whole sprite: cells under a set bit are toggled, all others kept,
      and the collision flag holds exactly when one of the toggled cells was lit. */
  lemma PlotWhole(cells: seq<u8>, sprite: seq<u8>, x: nat, y: nat)
    requires |cells| == DISPLAY_SIZE
    ensures var p := PlotLines(Plotted(cells, false), sprite, x, y, |sprite|);
      && (forall loc :: 0 <= loc < DISPLAY_SIZE ==>
            p.cells[loc] == if Covers(sprite, x, y, loc) then Toggle(cells[loc]) else cells[loc])
      && (p.collision <==> exists loc :: 0 <= loc < DISPLAY_SIZE && Covers(sprite, x, y, loc) && cells[loc] == 1)
  {
    PlotLinesPrefix(cells, sprite, x, y);
    forall loc | 0 <= loc < DISPLAY_SIZE
      ensures CoversBefore(sprite, x, y, 8 * |sprite|, loc) == Covers(sprite, x, y, loc)
    {
      if Covers(sprite, x, y, loc) {
        var l, b :| 0 <= l < |sprite| && 0 <= b < 8 && SpriteBit(sprite[l], b) && Location(x, y, l, b) == loc;
        assert l * 8 + b < 8 * |sprite|;
      }
    }
  }

  /** DXYN, pixel by pixel: each cell under a set sprite bit flips between 0
      and 1, every other cell keeps its value; VF becomes 1 exactly when a
      set bit landed on a lit cell and 0 otherwise; the other registers and
      everything but the display and the redraw flag are unchanged. */
  lemma DrawEffect(m: Machine, x: nibble, y: nibble, height: nibble)
    requires WellFormed(m) && DrawDefined(m, x, y, height)
    ensures var r := ExecuteDraw(m, x, y, height);
      var sprite, vx, vy := Sprite(m, height), DrawRegisters(m)[x], DrawRegisters(m)[y];
      forall loc :: 0 <= loc < DISPLAY_SIZE ==>
        r.graphics[loc] == if Covers(sprite, vx, vy, loc) then 1 - m.graphics[loc] else m.graphics[loc]
    ensures var r := ExecuteDraw(m, x, y, height);
      var sprite, vx, vy := Sprite(m, height), DrawRegisters(m)[x], DrawRegisters(m)[y];
      r.v[FLAG] == if exists loc :: 0 <= loc < DISPLAY_SIZE && Covers(sprite, vx, vy, loc) && m.graphics[loc] == 1 then 1 else 0
    ensures var r := ExecuteDraw(m, x, y, height);
      forall reg :: 0 <= reg < FLAG ==> r.v[reg] == m.v[reg]
    ensures var r := ExecuteDraw(m, x, y, height);
      r == m.(v := r.v, graphics := r.graphics, draw := true)
  {
    var v, sprite := DrawRegisters(m), Sprite(m, height);
    var p := PlotLines(Plotted(m.graphics, false), sprite, v[x], v[y], height);
    assert |sprite| == height;
    PlotWhole(m.graphics, sprite, v[x], v[y]);
    var r := ExecuteDraw(m, x, y, height);
    assert r.graphics == p.cells;
    assert r.v == v[FLAG := if p.collision then 1 else 0];
    forall loc | 0 <= loc < DISPLAY_SIZE
      ensures r.graphics[loc] == if Covers(sprite, v[x], v[y], loc) then 1 - m.graphics[loc] else m.graphics[loc]
    {
      assert m.graphics[loc] <= 1;
    }
  }

  /** Drawing the same sprite twice restores the display (XOR is an
      involution); the second draw reports a collision exactly when the
      sprite covers a cell that was dark before the first. The first draw
      changes neither I, memory nor the coordinates the second one reads. */
  lemma DrawTwiceRestores(m: Machine, x: nibble, y: nibble, height: nibble)
    requires WellFormed(m) && DrawDefined(m, x, y, height)
    ensures var once := ExecuteDraw(m, x, y, height);
      && DrawDefined(once, x, y, height)
      && ExecuteDraw(once, x, y, height).graphics == m.graphics
      && (ExecuteDraw(once, x, y, height).v[FLAG] == 1 <==>
            exists loc :: 0 <= loc < DISPLAY_SIZE && Covers(Sprite(m, height), DrawRegisters(m)[x], DrawRegisters(m)[y], loc) && m.graphics[loc] == 0)
  {
    var once := ExecuteDraw(m, x, y, height);
    var sprite, vx, vy := Sprite(m, height), DrawRegisters(m)[x], DrawRegisters(m)[y];
    assert DrawRegisters(once) == DrawRegisters(m);
    assert Sprite(once, height) == sprite;
    DrawEffect(m, x, y, height);
    DrawEffect(once, x, y, height);
    var twice := ExecuteDraw(once, x, y, height);
    assert twice.graphics == m.graphics by {
      forall loc | 0 <= loc < DISPLAY_SIZE ensures twice.graphics[loc] == m.graphics[loc] {
        assert m.graphics[loc] <= 1;
      }
    }
    if exists loc :: 0 <= loc < DISPLAY_SIZE && Covers(sprite, vx, vy, loc) && m.graphics[loc] == 0 {
      var loc :| 0 <= loc < DISPLAY_SIZE && Covers(sprite, vx, vy, loc) && m.graphics[loc] == 0;
      assert once.graphics[loc] == 1;
    }
  }

  /** DXYN overwrites VF before it reads the coordinates, so the old VF never
      influences the draw: a coordinate taken from VF is 0. */
  lemma DrawIgnoresFlag(m: Machine, x: nibble, y: nibble, height: nibble, flag: u8)
    requires WellFormed(m) && DrawDefined(m, x, y, height)
    ensures var m' := m.(v := m.v[FLAG := flag]);
      WellFormed(m') && DrawDefined(m', x, y, height) && ExecuteDraw(m', x, y, height) == ExecuteDraw(m, x, y, height)
    ensures x == FLAG ==> DrawRegisters(m)[x] == 0
  {
    var m' := m.(v := m.v[FLAG := flag]);
    assert DrawRegisters(m') == DrawRegisters(m);
  }

  // ---------------------------------------------------------------- cycle

  /** The program counter has moved past the instruction word, modulo 2^16. */
  lemma AdvanceWraps(pc: u16)
    ensures Advance(pc) == if pc < 0xFFFE then pc + 2 else pc + 2 - 0x1_0000
  {
  }

  /** Every instruction except a jump, a call or a return leaves Pc just
      past the instruction word. */
  lemma CycleAdvancesPc(m: Machine)
    requires CanCycle(m)
    requires !(Decode(FetchOpcode(m)).Jump? || Decode(FetchOpcode(m)).Call? || Decode(FetchOpcode(m)).Return?)
    ensures Cycle(m).next.pc == (m.pc + 2) % 0x1_0000
  {
  }

  /** 1NNN sets Pc to NNN and touches no register, memory, stack or pixel. */
  lemma JumpSetsPc(m: Machine)
    requires CanCycle(m) && Family(FetchOpcode(m)) == 0x1
    ensures var r := Cycle(m).next;
      && r.pc == FetchOpcode(m) % 0x1000
      && r.v == m.v && r.i == m.i && r.memory == m.memory
      && r.stack == m.stack && r.sp == m.sp && r.graphics == m.graphics && r.draw == m.draw
  {
  }

  /** ANNN sets I to NNN and touches no register, memory, stack or pixel. */
  lemma SetIndexSetsI(m: Machine)
    requires CanCycle(m) && Family(FetchOpcode(m)) == 0xA
    ensures var r := Cycle(m).next;
      && r.i == FetchOpcode(m) % 0x1000
      && r.pc == Advance(m.pc)
      && r.v == m.v && r.memory == m.memory
      && r.stack == m.stack && r.sp == m.sp && r.graphics == m.graphics && r.draw == m.draw
  {
  }

  /** Dividing a word by 0x100 or 0x10 splits off its family nibble. */
  lemma ShiftFamily(family: nat, nnn: nat)
    requires nnn < 0x1000
    ensures (family * 0x1000 + nnn) / 0x100 == family * 0x10 + nnn / 0x100
    ensures (family * 0x1000 + nnn) / 0x10 == family * 0x100 + nnn / 0x10
  {
    var q := nnn / 0x100;
    assert family * 0x1000 + nnn == (family * 0x10 + q) * 0x100 + nnn % 0x100;
    var t := nnn / 0x10;
    assert family * 0x1000 + nnn == (family * 0x100 + t) * 0x10 + nnn % 0x10;
  }

  /** The X, Y and N nibbles of a word, `(Opcode & 0x0F00) >> 8` and so on,
      read from the word itself or from its NNN field. */
  lemma DrawFields(op: u16)
    ensures op / 0x100 % 0x10 == Nnn(op) / 0x100
    ensures op / 0x10 % 0x10 == Nnn(op) / 0x10 % 0x10
    ensures op % 0x10 == Nnn(op) % 0x10
  {
    var family: nat, nnn: nat := Family(op), Nnn(op);
    assert op == family * 0x1000 + nnn;
    ShiftFamily(family, nnn);
  }

  /** DXYN within a cycle: after the fetch and the Pc advance, the display
      and the registers are those ExecuteDraw gives for the word's X, Y and N
      nibbles. */
  lemma CycleDraws(m: Machine)
    requires CanCycle(m) && Family(FetchOpcode(m)) == 0xD
    ensures var op := FetchOpcode(m);
      var f := m.(opcode := op, pc := Advance(m.pc));
      && WellFormed(f) && DrawDefined(f, op / 0x100 % 0x10, op / 0x10 % 0x10, op % 0x10)
      && Cycle(m).next.graphics == ExecuteDraw(f, op / 0x100 % 0x10, op / 0x10 % 0x10, op % 0x10).graphics
      && Cycle(m).next.v == ExecuteDraw(f, op / 0x100 % 0x10, op / 0x10 % 0x10, op % 0x10).v
  {
    var op := FetchOpcode(m);
    var f := m.(opcode := op, pc := Advance(m.pc));
    var nnn: int := Nnn(op);
    assert Decode(op) == DrawSprite(nnn / 0x100, nnn / 0x10 % 0x10, nnn % 0x10);
    DrawFields(op);
    assert Execute(f, Decode(op)).machine == ExecuteDraw(f, op / 0x100 % 0x10, op / 0x10 % 0x10, op % 0x10);
  }

  /** 2NNN pushes the address after the call, moves Sp up by one and jumps
      to NNN; registers, I, memory, display and Draw are unchanged. */
  lemma CallPushes(m: Machine)
    requires CanCycle(m) && Family(FetchOpcode(m)) == 0x2
    ensures var r := Cycle(m).next;
      && r.stack == m.stack[m.sp := Advance(m.pc)]
      && r.sp == m.sp + 1
      && r.pc == Nnn(FetchOpcode(m))
      && r.v == m.v && r.i == m.i && r.memory == m.memory && r.graphics == m.graphics && r.draw == m.draw
  {
  }

  /** 00EE moves Sp down by one and jumps to the address stored there; the
      stack itself, registers, I, memory, display and Draw are unchanged. */
  lemma ReturnPops(m: Machine)
    requires CanCycle(m) && FetchOpcode(m) == 0x00EE
    ensures var r := Cycle(m).next;
      && r.sp == m.sp - 1
      && r.pc == m.stack[m.sp - 1]
      && r.stack == m.stack
      && r.v == m.v && r.i == m.i && r.memory == m.memory && r.graphics == m.graphics && r.draw == m.draw
  {
  }

  /** 2NNN followed by the 00EE it calls: Sp is back where it was and Pc is
      the address just after the call; the return address stays in the
      stack slot the call used. */
  lemma CallThenReturn(m: Machine)
    requires CanCycle(m) && Family(FetchOpcode(m)) == 0x2
    requires Nnn(FetchOpcode(m)) + 1 < MEMORY_SIZE
    requires m.memory[Nnn(FetchOpcode(m))] == 0x00 && m.memory[Nnn(FetchOpcode(m)) + 1] == 0xEE
    ensures var called := Cycle(m).next;
      && called.pc == Nnn(FetchOpcode(m))
      && called.sp == m.sp + 1
      && CanCycle(called)
      && var returned := Cycle(called).next;
      && returned.pc == Advance(m.pc)
      && returned.sp == m.sp
      && returned.stack == m.stack[m.sp := Advance(m.pc)]
      && returned.v == m.v && returned.i == m.i && returned.graphics == m.graphics
  {
    var called := Cycle(m).next;
    assert FetchOpcode(called) == 0x00EE;
  }

  /** 00E0 turns every pixel off; unlike DXYN it does not set Draw. */
  lemma ClearScreenClears(m: Machine)
    requires CanCycle(m) && FetchOpcode(m) == 0x00E0
    ensures var r := Cycle(m).next;
      && (forall loc :: 0 <= loc < DISPLAY_SIZE ==> r.graphics[loc] == 0)
      && r.draw == m.draw
      && r.pc == Advance(m.pc) && r.v == m.v && r.i == m.i && r.stack == m.stack && r.sp == m.sp
  {
  }

  /** 0NNN (other than 00E0 and 00EE) and every word of an unhandled family
      change nothing but the stored opcode, Pc and the timers; only the
      latter are reported. */
  lemma IgnoredOpcodes(m: Machine)
    requires CanCycle(m)
    requires Decode(FetchOpcode(m)).MachineCall? || Decode(FetchOpcode(m)).NotImplemented?
    ensures var r := Cycle(m);
      && r.next == m.(opcode := FetchOpcode(m), pc := Advance(m.pc),
                      delayTimer := CountDown(m.delayTimer), soundTimer := CountDown(m.soundTimer))
      && (r.notImplemented <==> Family(FetchOpcode(m)) !in {0x0, 0x1, 0x2, 0xA, 0xD})
  {
  }

  /** Every cycle keeps the arrays at the sizes the struct declares and
      every pixel 0 or 1, and moves Sp by at most one, within the sixteen
      stack entries. */
  lemma CycleKeepsShape(m: Machine)
    requires CanCycle(m)
    ensures var r := Cycle(m).next;
      && |r.memory| == MEMORY_SIZE && |r.v| == REGISTER_COUNT && |r.graphics| == DISPLAY_SIZE
      && |r.stack| == STACK_DEPTH && |r.key| == KEY_COUNT
      && Binary(r.graphics)
      && r.sp as nat <= STACK_DEPTH
      && m.sp - 1 <= r.sp <= m.sp + 1
  {
  }

  // ---------------------------------------------------------------- runs

  /** The first n cycles from m are all defined. */
  ghost predicate Runnable(m: Machine, n: nat)
    decreases n
  {
    n == 0 || (CanCycle(m) && Runnable(Cycle(m).next, n - 1))
  }

  datatype Run = Run(last: Machine, buzzes: nat)

  /** The state after n cycles and how many of them signalled the buzzer. */
  ghost function RunCycles(m: Machine, n: nat): Run
    requires Runnable(m, n)
    decreases n
  {
    if n == 0 then Run(m, 0)
    else
      var step := Cycle(m);
      var rest := RunCycles(step.next, n - 1);
      Run(rest.last, rest.buzzes + if step.buzzer then 1 else 0)
  }

  /** A timer counted down n times from t. */
  function CountDownBy(t: nat, n: nat): nat
  {
    if t >= n then t - n else 0
  }

  /** One more count-down after a single step: the per-cycle CountDown
      composes into CountDownBy. */
  lemma CountDownSteps(t: u8, n: nat)
    ensures CountDownBy(CountDown(t), n) == CountDownBy(t, n + 1)
  {
  }

  /** The buzzer is signalled exactly in the step in which a running sound
      timer reaches zero. */
  lemma BuzzerAtZero(t: u8)
    ensures Buzzes(t) <==> t > 0 && CountDown(t) == 0
  {
  }

  /** Over n cycles the timers count down by one per cycle and stop at zero,
      whatever the instructions do; the buzzer sounds exactly once, in the
      cycle that takes the sound timer from 1 to 0, if the run gets that far;
      memory is never written, and the state stays well formed. */
  lemma {:induction false} RunCountsDown(m: Machine, n: nat)
    requires WellFormed(m) && Runnable(m, n)
    ensures var r := RunCycles(m, n);
      && WellFormed(r.last)
      && r.last.delayTimer == CountDownBy(m.delayTimer, n)
      && r.last.soundTimer == CountDownBy(m.soundTimer, n)
      && r.buzzes == (if 1 <= m.soundTimer <= n then 1 else 0)
      && r.last.memory == m.memory
    decreases n
  {
    if n > 0 {
      RunCountsDown(Cycle(m).next, n - 1);
    }
  }

  // ---------------------------------------------------------------- start-up

  /** Initialising and then loading a program of at most MAX_ROM_SIZE bytes
      yields a well-formed state whose font and interpreter area are intact
      and whose first fetch reads the program's first two bytes. */
  lemma LoadAfterInitialize(rom: seq<u8>)
    requires |rom| <= MAX_ROM_SIZE
    ensures var m := InitialMachine().(memory := LoadedMemory(InitialMachine().memory, rom));
      && WellFormed(m)
      && m.memory[..|FONT|] == FONT
      && (forall a :: |FONT| <= a < PROGRAM_START ==> m.memory[a] == 0)
      && m.memory[PROGRAM_START..PROGRAM_START + |rom|] == rom
      && (|rom| >= 2 ==> CanFetch(m) && FetchOpcode(m) == (rom[0] as int) * 0x100 + rom[1])
  {
    var m := InitialMachine().(memory := LoadedMemory(InitialMachine().memory, rom));
    assert m.memory[..|FONT|] == FONT by {
      forall a | 0 <= a < |FONT| ensures m.memory[a] == FONT[a] {
        assert InitialMachine().memory[..|FONT|][a] == FONT[a];
      }
    }
  }
}

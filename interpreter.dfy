/** The `chip8` struct and the functions of chip8.cpp that update it in place,
    each proved against the value semantics of module Semantics. */
module Interpreter {
  import opened Chip8State
  import opened Decoder
  import opened Semantics

  class Chip8 {
    var Opcode: u16
    const Memory: array<u8>
    var I: u16
    var Pc: u16
    const V: array<u8>
    const Graphics: array<u8>
    const Stack: array<u16>
    var Sp: u16
    var DelayTimer: u8
    var SoundTimer: u8
    const Key: array<u8>
    var Draw: bool

    /** The arrays have the declared sizes and are distinct. */
    predicate Allocated()
    {
      && Memory.Length == MEMORY_SIZE
      && V.Length == REGISTER_COUNT
      && Graphics.Length == DISPLAY_SIZE
      && Stack.Length == STACK_DEPTH
      && Key.Length == KEY_COUNT
      && Memory != V && Memory != Graphics && Memory != Key
      && V != Graphics && V != Key && Graphics != Key
    }

    /** The current contents of every field. */
    ghost function State(): Machine
      reads this, Memory, V, Graphics, Stack, Key
    {
      Machine(Opcode, Memory[..], I, Pc, V[..], Graphics[..], Stack[..], Sp,
              DelayTimer, SoundTimer, Key[..], Draw)
    }

    ghost predicate Valid()
      reads this, Memory, V, Graphics, Stack, Key
    {
      Allocated() && WellFormed(State())
    }

    /** Storage for one machine, brought up by Initialize. */
    constructor ()
      ensures Valid() && State() == InitialMachine()
      ensures fresh(Memory) && fresh(V) && fresh(Graphics) && fresh(Stack) && fresh(Key)
    {
      Memory := new u8[MEMORY_SIZE];
      V := new u8[REGISTER_COUNT];
      Graphics := new u8[DISPLAY_SIZE];
      Stack := new u16[STACK_DEPTH];
      Key := new u8[KEY_COUNT];
      new;
      Initialize();
    }

    /** Chip8Initialize: clear the whole struct, put the font at address 0
        and point Pc at the program area. */
    method Initialize()
      requires Allocated()
      modifies this, Memory, V, Graphics, Stack, Key
      ensures Valid() && State() == InitialMachine()
    {
      Clear();
      Pc := PROGRAM_START as u16;
      LoadFont();
    }

    /** The font copy loop of Chip8Initialize. */
    method LoadFont()
      requires Allocated()
      modifies Memory
      ensures Memory[..] == FONT + old(Memory[..])[|FONT|..]
    {
      for index := 0 to |FONT|
        invariant forall a :: 0 <= a < index ==> Memory[a] == FONT[a]
        invariant forall a :: index <= a < Memory.Length ==> Memory[a] == old(Memory[a])
      {
        Memory[index] := FONT[index];
      }
      assert Memory[..] == FONT + old(Memory[..])[|FONT|..];
    }

    /** `memset(Processor, 0, sizeof(chip8))`. */
    method Clear()
      requires Allocated()
      modifies this, Memory, V, Graphics, Stack, Key
      ensures State() == ZeroMachine()
    {
      Opcode, I, Pc, Sp, DelayTimer, SoundTimer, Draw := 0, 0, 0, 0, 0, 0, false;
      forall a | 0 <= a < Memory.Length { Memory[a] := 0; }
      forall r | 0 <= r < V.Length { V[r] := 0; }
      forall k | 0 <= k < Graphics.Length { Graphics[k] := 0; }
      forall s | 0 <= s < Stack.Length { Stack[s] := 0; }
      forall k | 0 <= k < Key.Length { Key[k] := 0; }
      assert Memory[..] == ZeroMachine().memory;
      assert V[..] == ZeroMachine().v;
      assert Graphics[..] == ZeroMachine().graphics;
      assert Stack[..] == ZeroMachine().stack;
      assert Key[..] == ZeroMachine().key;
    }

    /** The copy loop of Chip8LoadRom: the program's bytes go to memory from
        PROGRAM_START on. */
    method LoadRom(rom: seq<u8>)
      requires Allocated() && |rom| <= MAX_ROM_SIZE
      modifies Memory
      ensures old(Valid()) ==> Valid()
      ensures State() == old(State()).(memory := LoadedMemory(old(Memory[..]), rom))
    {
      for index := 0 to |rom|
        invariant forall a :: 0 <= a < Memory.Length ==>
          Memory[a] == if PROGRAM_START <= a < PROGRAM_START + index then rom[a - PROGRAM_START] else old(Memory[a])
      {
        Memory[PROGRAM_START + index] := rom[index];
      }
      assert Memory[..] == LoadedMemory(old(Memory[..]), rom);
    }

    /** The DXYN case of Chip8DoCycle: for each sprite line (the source's
        Col) plot its eight bits (the source's Row) with PlotLine. */
    method DrawSprite(x: nibble, y: nibble, height: nibble)
      requires Valid() && DrawDefined(State(), x, y, height)
      modifies V, Graphics, this`Draw
      ensures Valid()
      ensures State() == ExecuteDraw(old(State()), x, y, height)
    {
      ghost var m := State();
      ghost var sprite := Sprite(m, height);
      ghost var start := Plotted(m.graphics, false);
      V[FLAG] := 0;
      var X, Y := V[x], V[y];
      assert X == DrawRegisters(m)[x] && Y == DrawRegisters(m)[y];

      for line := 0 to height
        modifies V, Graphics
        invariant Graphics[..] == PlotLines(start, sprite, X, Y, line).cells
        invariant V[..] == m.v[FLAG := if PlotLines(start, sprite, X, Y, line).collision then 1 else 0]
      {
        var pixel := Memory[I as nat + line];
        assert pixel == sprite[line];
        PlotLine(X, Y, line, pixel, PlotLines(start, sprite, X, Y, line), m.v);
      }
      Draw := true;
      ghost var r := ExecuteDraw(m, x, y, height);
      assert Graphics[..] == r.graphics;
      assert V[..] == r.v;
      assert State() == r;
    }

    /** The inner loop of DXYN: XOR-plot the eight bits of one sprite line,
        setting VF when a set bit lands on a lit pixel. `before` is the
        display and collision flag so far, `v` the registers before the draw. */
    method PlotLine(X: u8, Y: u8, line: nat, pixel: u8, ghost before: Plotted, ghost v: seq<u8>)
      requires Allocated() && |before.cells| == DISPLAY_SIZE && |v| == REGISTER_COUNT
      requires LineFits(pixel, X, Y, line)
      requires Graphics[..] == before.cells
      requires V[..] == v[FLAG := if before.collision then 1 else 0]
      modifies V, Graphics
      ensures Graphics[..] == PlotBits(before, pixel, X, Y, line, SPRITE_WIDTH).cells
      ensures V[..] == v[FLAG := if PlotBits(before, pixel, X, Y, line, SPRITE_WIDTH).collision then 1 else 0]
    {
      for bit := 0 to SPRITE_WIDTH
        invariant Graphics[..] == PlotBits(before, pixel, X, Y, line, bit).cells
        invariant V[..] == v[FLAG := if PlotBits(before, pixel, X, Y, line, bit).collision then 1 else 0]
      {
        if SpriteBit(pixel, bit) {
          var location := Location(X, Y, line, bit);
          if Graphics[location] == 1 {
            V[FLAG] := 1;
          }
          Graphics[location] := Toggle(Graphics[location]);
        }
      }
    }

    /** The timer step at the end of Chip8DoCycle; `buzzer` stands for the
        "Make buzzer sound!" message. */
    method TickTimers() returns (buzzer: bool)
      modifies this`DelayTimer, this`SoundTimer
      ensures DelayTimer == CountDown(old(DelayTimer)) && SoundTimer == CountDown(old(SoundTimer))
      ensures buzzer == Buzzes(old(SoundTimer))
    {
      if DelayTimer > 0 {
        DelayTimer := DelayTimer - 1;
      }
      buzzer := false;
      if SoundTimer > 0 {
        if SoundTimer == 1 {
          buzzer := true;
        }
        SoundTimer := SoundTimer - 1;
      }
    }

    /** Chip8DoCycle; `notImplemented` stands for the "Not yet implemented"
        message. */
    method DoCycle() returns (notImplemented: bool, buzzer: bool)
      requires Valid() && CanCycle(State())
      modifies this, V, Graphics, Stack
      ensures Valid()
      ensures State() == Cycle(old(State())).next
      ensures notImplemented == Cycle(old(State())).notImplemented
      ensures buzzer == Cycle(old(State())).buzzer
    {
      ghost var m := State();
      Opcode := (Memory[Pc] as int) * 0x100 + Memory[Pc + 1];
      Pc := (Pc + 2) % 0x1_0000;
      ghost var fetched := m.(opcode := FetchOpcode(m), pc := Advance(m.pc));
      assert State() == fetched;
      notImplemented := Dispatch(Decode(Opcode));
      ghost var executed := Execute(fetched, Decode(Opcode)).machine;
      buzzer := TickTimers();
      assert State() == executed.(delayTimer := CountDown(executed.delayTimer), soundTimer := CountDown(executed.soundTimer));
    }

    /** The `switch` of Chip8DoCycle, run after Pc has advanced. */
    method Dispatch(ins: Instruction) returns (notImplemented: bool)
      requires Valid() && Permits(State(), ins)
      modifies this, V, Graphics, Stack
      ensures Valid()
      ensures State() == Execute(old(State()), ins).machine
      ensures notImplemented == Execute(old(State()), ins).notImplemented
    {
      notImplemented := false;
      match ins {
        case ClearScreen =>
          forall k | 0 <= k < Graphics.Length { Graphics[k] := 0; }
          assert Graphics[..] == seq(DISPLAY_SIZE, _ => 0);
        case Return =>
          Sp := Sp - 1;
          Pc := Stack[Sp];
        case MachineCall(_) =>
        case Jump(nnn) =>
          Pc := nnn;
        case Call(nnn) =>
          Stack[Sp] := Pc;
          Sp := Sp + 1;
          Pc := nnn;
        case SetIndex(nnn) =>
          I := nnn;
        case DrawSprite(x, y, n) =>
          DrawSprite(x, y, n);
        case NotImplemented(_) =>
          notImplemented := true;
      }
    }
  }
}

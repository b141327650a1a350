/** The opcode decoder of Chip8DoCycle: the high nibble selects the family,
    family 0 is split on the whole word, and every family the interpreter does
    not handle falls to "not yet implemented". Masks and shifts of contiguous
    bit fields are written as division and remainder by powers of two. */
module Decoder {
  import opened Chip8State

  /** A 4-bit field of an opcode. */
  type nibble = x: int | 0 <= x < 0x10

  /** A 12-bit address, `Opcode & 0x0FFF`. */
  type address = x: int | 0 <= x < 0x1000

  datatype Instruction =
    | ClearScreen                                   // 00E0
    | Return                                        // 00EE
    | MachineCall(target: address)                  // 0NNN, ignored
    | Jump(target: address)                         // 1NNN
    | Call(target: address)                         // 2NNN
    | SetIndex(target: address)                     // ANNN
    | DrawSprite(x: nibble, y: nibble, height: nibble) // DXYN
    | NotImplemented(opcode: u16)                   // every other word

  /** `(Opcode & 0xF000) >> 12`, the operation family: the word lies in
      the family's block of 0x1000 words. */
  function Family(op: u16): (f: nibble)
    ensures f * 0x1000 <= op < f * 0x1000 + 0x1000
  {
    op / 0x1000
  }

  /** `Opcode & 0x0FFF`: the word with its family nibble cleared. */
  function Nnn(op: u16): (nnn: address)
    ensures (op - nnn) % 0x1000 == 0
  {
    op % 0x1000
  }

  /** The two switches of Chip8DoCycle: on the family, then, in family 0,
      on the whole word. EncodeDecode and DecodeEncode below state that it is
      a bijection onto the canonical instructions. */
  function Decode(op: u16): Instruction
  {
    var family: int, nnn: int := Family(op), Nnn(op);
    if family == 0x0 then
      if op == 0x00E0 then ClearScreen
      else if op == 0x00EE then Return
      else MachineCall(nnn)
    else if family == 0x1 then Jump(nnn)
    else if family == 0x2 then Call(nnn)
    else if family == 0xA then SetIndex(nnn)
    else if family == 0xD then DrawSprite(nnn / 0x100, nnn / 0x10 % 0x10, nnn % 0x10)
    else NotImplemented(op)
  }

  /** The instruction word of an instruction; the inverse of Decode. */
  function Encode(ins: Instruction): u16
  {
    match ins
    case ClearScreen => 0x00E0
    case Return => 0x00EE
    case MachineCall(nnn) => nnn
    case Jump(nnn) => 0x1000 + nnn
    case Call(nnn) => 0x2000 + nnn
    case SetIndex(nnn) => 0xA000 + nnn
    case DrawSprite(x, y, n) => 0xD000 + x * 0x100 + y * 0x10 + n
    case NotImplemented(op) => op
  }

  /** The instructions Decode can produce: a 0NNN word is neither 00E0 nor
      00EE, and an unhandled word is not in a handled family. */
  predicate Canonical(ins: Instruction)
  {
    match ins
    case MachineCall(nnn) => nnn != 0x0E0 && nnn != 0x0EE
    case NotImplemented(op) => Family(op) !in {0x0, 0x1, 0x2, 0xA, 0xD}
    case _ => true
  }

  /** Decoding loses nothing: every word is the encoding of its decoding. */
  lemma EncodeDecode(op: u16)
    ensures Canonical(Decode(op))
    ensures Encode(Decode(op)) == op
  {
    var family: int, nnn: int := Family(op), Nnn(op);
    assert op == family * 0x1000 + nnn;
    if family == 0xD {
      assert nnn == nnn / 0x100 * 0x100 + nnn / 0x10 % 0x10 * 0x10 + nnn % 0x10;
    }
  }

  /** Every instruction Decode can produce decodes back from its encoding. */
  lemma DecodeEncode(ins: Instruction)
    requires Canonical(ins)
    ensures Decode(Encode(ins)) == ins
  {
    match ins
    case DrawSprite(x, y, n) =>
      var nnn := x * 0x100 + y * 0x10 + n;
      assert Family(Encode(ins)) == 0xD && Nnn(Encode(ins)) == nnn;
      assert nnn / 0x100 == x && nnn / 0x10 == x * 0x10 + y;
    case _ =>
  }

  /** The interpreter handles exactly the families 0, 1, 2, A and D. */
  lemma NotImplementedFamilies(op: u16)
    ensures Decode(op).NotImplemented? <==> Family(op) !in {0x0, 0x1, 0x2, 0xA, 0xD}
  {
  }
}

/** Decoding of CHIP-8 instruction words (cpu/main.go, `DoCycle`).

    `Decode` follows the nested switch of `DoCycle` branch for branch: the
    outer switch on the top nibble, the sub-switches on the bottom nibble in
    groups 0x0, 0x8, 0xE and 0xF, and the extra switch on bits 4-7 for the
    0xF?05 family. Every handler receives the whole instruction word, so an
    `Instruction` keeps the word next to the handler it selects.

    `GroupOf`, `LowOf`, `MiddleOf` and `Matches` give an independent,
    table-style description of the accepted words (one row of fixed nibbles
    per handler, in the style of the usual CHIP-8 opcode tables); the lemmas
    at the end tie the two together.
 */
module Decoder {
  import opened Results

  /** The handler a word is dispatched to, named after the operation. */
  datatype Kind =
    | ClearScreen              // 00E0, do00E0
    | Breakpoint               // 0001, do0001
    | Return                   // 00EE, do000E
    | Jump                     // 1NNN
    | Call                     // 2NNN
    | SkipIfEqual              // 3XNN
    | SkipIfNotEqual           // 4XNN
    | SkipIfRegistersEqual     // 5XY0
    | LoadImmediate            // 6XNN
    | AddImmediate             // 7XNN
    | Move                     // 8XY0
    | Or                       // 8XY1
    | And                      // 8XY2
    | Xor                      // 8XY3
    | AddWithCarry             // 8XY4
    | Subtract                 // 8XY5
    | ShiftRight               // 8XY6
    | SubtractReversed         // 8XY7
    | ShiftLeft                // 8XYE
    | SkipIfRegistersNotEqual  // 9XY0
    | SetIndex                 // ANNN
    | JumpWithOffset           // BNNN
    | Random                   // CXNN
    | DrawSprite               // DXYN
    | SkipIfKeyPressed         // EX9E
    | SkipIfKeyNotPressed      // EXA1
    | LoadDelayTimer           // FX07
    | AwaitKey                 // FX0A
    | SetDelayTimer            // FX15
    | StoreRegisters           // FX55
    | LoadRegisters            // FX65
    | SetSoundTimer            // FX18
    | AddToIndex               // FX1E
    | FontCharacter            // FX29
    | StoreBcd                 // FX33

  /** A decoded word: the handler it selects and the word handed to it. */
  datatype Instruction = Instruction(kind: Kind, op: bv16)

  /** The sixteen values of the top nibble, as the outer switch sees them. */
  function Group(op: bv16): bv16 {
    op & 0xF000
  }

  /** The nested switch of `DoCycle`. Every default branch panics with the
      word, which is `Err(UnknownOpcode(op))` here. */
  function Decode(op: bv16): (r: Result<Instruction>)
    ensures r.Ok? ==> r.value.op == op
    ensures r.Err? ==> r.fault == UnknownOpcode(op)
  {
    var group := op & 0xF000;
    if group == 0x0000 then DecodeSystem(op)
    else if group == 0x1000 then Ok(Instruction(Jump, op))
    else if group == 0x2000 then Ok(Instruction(Call, op))
    else if group == 0x3000 then Ok(Instruction(SkipIfEqual, op))
    else if group == 0x4000 then Ok(Instruction(SkipIfNotEqual, op))
    else if group == 0x5000 then Ok(Instruction(SkipIfRegistersEqual, op))
    else if group == 0x6000 then Ok(Instruction(LoadImmediate, op))
    else if group == 0x7000 then Ok(Instruction(AddImmediate, op))
    else if group == 0x8000 then DecodeArithmetic(op)
    else if group == 0x9000 then Ok(Instruction(SkipIfRegistersNotEqual, op))
    else if group == 0xA000 then Ok(Instruction(SetIndex, op))
    else if group == 0xB000 then Ok(Instruction(JumpWithOffset, op))
    else if group == 0xC000 then Ok(Instruction(Random, op))
    else if group == 0xD000 then Ok(Instruction(DrawSprite, op))
    else if group == 0xE000 then DecodeKey(op)
    else if group == 0xF000 then DecodeMisc(op)
    else
      // The sixteen groups above are exhaustive: the outer default branch
      // of the Go switch can never be taken.
      assert false;
      Err(UnknownOpcode(op))
  }

  /** The sub-switch of group 0x0 on the bottom nibble. */
  function DecodeSystem(op: bv16): Result<Instruction> {
    var low := op & 0x000F;
    if low == 0x0000 then Ok(Instruction(ClearScreen, op))
    else if low == 0x0001 then Ok(Instruction(Breakpoint, op))
    else if low == 0x000E then Ok(Instruction(Return, op))
    else Err(UnknownOpcode(op))
  }

  /** The sub-switch of group 0x8 on the bottom nibble. */
  function DecodeArithmetic(op: bv16): Result<Instruction> {
    var low := op & 0x000F;
    if low == 0x0000 then Ok(Instruction(Move, op))
    else if low == 0x0001 then Ok(Instruction(Or, op))
    else if low == 0x0002 then Ok(Instruction(And, op))
    else if low == 0x0003 then Ok(Instruction(Xor, op))
    else if low == 0x0004 then Ok(Instruction(AddWithCarry, op))
    else if low == 0x0005 then Ok(Instruction(Subtract, op))
    else if low == 0x0006 then Ok(Instruction(ShiftRight, op))
    else if low == 0x0007 then Ok(Instruction(SubtractReversed, op))
    else if low == 0x000E then Ok(Instruction(ShiftLeft, op))
    else Err(UnknownOpcode(op))
  }

  /** The sub-switch of group 0xE on the bottom nibble. */
  function DecodeKey(op: bv16): Result<Instruction> {
    var low := op & 0x000F;
    if low == 0x000E then Ok(Instruction(SkipIfKeyPressed, op))
    else if low == 0x0001 then Ok(Instruction(SkipIfKeyNotPressed, op))
    else Err(UnknownOpcode(op))
  }

  /** The sub-switch of group 0xF on the bottom nibble, with the extra
      switch on bits 4-7 when the bottom nibble is 5. */
  function DecodeMisc(op: bv16): Result<Instruction> {
    var low := op & 0x000F;
    if low == 0x0007 then Ok(Instruction(LoadDelayTimer, op))
    else if low == 0x000A then Ok(Instruction(AwaitKey, op))
    else if low == 0x0005 then
      var middle := op & 0x00F0;
      if middle == 0x0010 then Ok(Instruction(SetDelayTimer, op))
      else if middle == 0x0050 then Ok(Instruction(StoreRegisters, op))
      else if middle == 0x0060 then Ok(Instruction(LoadRegisters, op))
      else Err(UnknownOpcode(op))
    else if low == 0x0008 then Ok(Instruction(SetSoundTimer, op))
    else if low == 0x000E then Ok(Instruction(AddToIndex, op))
    else if low == 0x0009 then Ok(Instruction(FontCharacter, op))
    else if low == 0x0003 then Ok(Instruction(StoreBcd, op))
    else Err(UnknownOpcode(op))
  }

  /** The top nibble of the words handled by `k`. */
  function GroupOf(k: Kind): bv16 {
    match k
    case ClearScreen | Breakpoint | Return => 0x0000
    case Jump => 0x1000
    case Call => 0x2000
    case SkipIfEqual => 0x3000
    case SkipIfNotEqual => 0x4000
    case SkipIfRegistersEqual => 0x5000
    case LoadImmediate => 0x6000
    case AddImmediate => 0x7000
    case Move | Or | And | Xor | AddWithCarry | Subtract | ShiftRight
      | SubtractReversed | ShiftLeft => 0x8000
    case SkipIfRegistersNotEqual => 0x9000
    case SetIndex => 0xA000
    case JumpWithOffset => 0xB000
    case Random => 0xC000
    case DrawSprite => 0xD000
    case SkipIfKeyPressed | SkipIfKeyNotPressed => 0xE000
    case _ => 0xF000
  }

  /** The bottom nibble the words handled by `k` must have, if any. */
  function LowOf(k: Kind): Option<bv16> {
    match k
    case ClearScreen => Some(0x0)
    case Breakpoint => Some(0x1)
    case Return => Some(0xE)
    case Move => Some(0x0)
    case Or => Some(0x1)
    case And => Some(0x2)
    case Xor => Some(0x3)
    case AddWithCarry => Some(0x4)
    case Subtract => Some(0x5)
    case ShiftRight => Some(0x6)
    case SubtractReversed => Some(0x7)
    case ShiftLeft => Some(0xE)
    case SkipIfKeyPressed => Some(0xE)
    case SkipIfKeyNotPressed => Some(0x1)
    case LoadDelayTimer => Some(0x7)
    case AwaitKey => Some(0xA)
    case SetDelayTimer | StoreRegisters | LoadRegisters => Some(0x5)
    case SetSoundTimer => Some(0x8)
    case AddToIndex => Some(0xE)
    case FontCharacter => Some(0x9)
    case StoreBcd => Some(0x3)
    case _ => None
  }

  /** Bits 4-7 (shifted in place) the words handled by `k` must have, if any. */
  function MiddleOf(k: Kind): Option<bv16> {
    match k
    case SetDelayTimer => Some(0x10)
    case StoreRegisters => Some(0x50)
    case LoadRegisters => Some(0x60)
    case _ => None
  }

  /** Word `op` has the shape of the words handled by `k`. */
  predicate Matches(k: Kind, op: bv16) {
    && op & 0xF000 == GroupOf(k)
    && (LowOf(k).None? || op & 0x000F == LowOf(k).value)
    && (MiddleOf(k).None? || op & 0x00F0 == MiddleOf(k).value)
  }

  /** Every word the decoder accepts has the shape its handler's row of
      the table prescribes. */
  lemma DecodeMatchesPattern(op: bv16)
    ensures Decode(op).Ok? ==> Matches(Decode(op).value.kind, op)
  {
    var g := Group(op);
    if g == 0x0000 {
      SystemGroup(op);
    } else if g == 0x8000 {
      ArithmeticGroup(op);
    } else if g == 0xE000 {
      KeyGroup(op);
    } else if g == 0xF000 {
      MiscGroup(op);
    } else {
      TopNibbleOnlyMatches(op);
    }
  }

  /** Every word that has the shape of a row of the table is decoded to
      that row's handler. */
  lemma PatternDecodes(op: bv16, k: Kind)
    requires Matches(k, op)
    ensures Decode(op) == Ok(Instruction(k, op))
  {
    var g := GroupOf(k);
    if g == 0x0000 {
      SystemPatternDecodes(op, k);
    } else if g == 0x8000 {
      ArithmeticPatternDecodes(op, k);
    } else if g == 0xE000 {
      KeyPatternDecodes(op, k);
    } else if g == 0xF000 {
      MiscPatternDecodes(op, k);
    } else {
      TopNibblePatternDecodes(op, k);
    }
  }

  /** `PatternDecodes` for group 0x0. */
  lemma SystemPatternDecodes(op: bv16, k: Kind)
    requires Matches(k, op) && GroupOf(k) == 0x0000
    ensures Decode(op) == Ok(Instruction(k, op))
  {
    assert Decode(op) == DecodeSystem(op);
  }

  /** `PatternDecodes` for group 0x8. */
  lemma ArithmeticPatternDecodes(op: bv16, k: Kind)
    requires Matches(k, op) && GroupOf(k) == 0x8000
    ensures Decode(op) == Ok(Instruction(k, op))
  {
    assert Decode(op) == DecodeArithmetic(op);
  }

  /** `PatternDecodes` for group 0xE. */
  lemma KeyPatternDecodes(op: bv16, k: Kind)
    requires Matches(k, op) && GroupOf(k) == 0xE000
    ensures Decode(op) == Ok(Instruction(k, op))
  {
    assert Decode(op) == DecodeKey(op);
  }

  /** `PatternDecodes` for group 0xF. */
  lemma MiscPatternDecodes(op: bv16, k: Kind)
    requires Matches(k, op) && GroupOf(k) == 0xF000
    ensures Decode(op) == Ok(Instruction(k, op))
  {
    assert Decode(op) == DecodeMisc(op);
  }

  /** `PatternDecodes` for the groups without a sub-switch. */
  lemma TopNibblePatternDecodes(op: bv16, k: Kind)
    requires Matches(k, op) && GroupOf(k) !in {0x0000, 0x8000, 0xE000, 0xF000}
    ensures Decode(op) == Ok(Instruction(k, op))
  {
  }

  /** Decoding selects handler `k` exactly when the word fits `k`'s row. */
  lemma DecodeAgreesWithPatterns(op: bv16, k: Kind)
    ensures Decode(op) == Ok(Instruction(k, op)) <==> Matches(k, op)
  {
    DecodeMatchesPattern(op);
    if Matches(k, op) {
      PatternDecodes(op, k);
    }
  }

  /** A word is rejected exactly when no row of the table fits it, and the
      error names the word. */
  lemma DecodeRejectsExactlyUnmatched(op: bv16)
    ensures Decode(op).Err? <==> forall k :: !Matches(k, op)
    ensures Decode(op).Err? ==> Decode(op) == Err(UnknownOpcode(op))
  {
    if Decode(op).Ok? {
      DecodeMatchesPattern(op);
    } else {
      forall k ensures !Matches(k, op) {
        DecodeAgreesWithPatterns(op, k);
      }
    }
  }

  /** No word fits two rows: the table is unambiguous. */
  lemma PatternsAreDisjoint(op: bv16, k1: Kind, k2: Kind)
    requires Matches(k1, op) && Matches(k2, op)
    ensures k1 == k2
  {
    PatternDecodes(op, k1);
    PatternDecodes(op, k2);
  }

  /** Decoding is total on the groups that have no sub-switch: the handler
      depends on the top nibble alone. */
  lemma TopNibbleOnlyGroups(op: bv16, other: bv16)
    requires Group(op) !in {0x0000, 0x8000, 0xE000, 0xF000}
    requires Group(other) == Group(op)
    ensures Decode(op).Ok? && Decode(other).Ok?
    ensures Decode(op).value.kind == Decode(other).value.kind
  {
  }

  /** On those groups the accepted word fits its handler's row. */
  lemma TopNibbleOnlyMatches(op: bv16)
    requires Group(op) !in {0x0000, 0x8000, 0xE000, 0xF000}
    ensures Decode(op).Ok? && Matches(Decode(op).value.kind, op)
  {
    var g := Group(op);
    if g < 0x5000 {
      LoadStoreGroupsMatch(op);
    } else if g < 0xA000 {
      CompareGroupsMatch(op);
    } else {
      IndexGroupsMatch(op);
    }
  }

  /** `TopNibbleOnlyMatches` for groups 0x1 to 0x4. */
  lemma LoadStoreGroupsMatch(op: bv16)
    requires Group(op) in {0x1000, 0x2000, 0x3000, 0x4000}
    ensures Decode(op).Ok? && Matches(Decode(op).value.kind, op)
  {
    var g := Group(op);
    if g == 0x1000 {
      TopNibblePatternDecodes(op, Jump);
    } else if g == 0x2000 {
      TopNibblePatternDecodes(op, Call);
    } else if g == 0x3000 {
      TopNibblePatternDecodes(op, SkipIfEqual);
    } else {
      TopNibblePatternDecodes(op, SkipIfNotEqual);
    }
  }

  /** `TopNibbleOnlyMatches` for groups 0x5, 0x6, 0x7 and 0x9. */
  lemma CompareGroupsMatch(op: bv16)
    requires Group(op) in {0x5000, 0x6000, 0x7000, 0x9000}
    ensures Decode(op).Ok? && Matches(Decode(op).value.kind, op)
  {
    var g := Group(op);
    if g == 0x5000 {
      TopNibblePatternDecodes(op, SkipIfRegistersEqual);
    } else if g == 0x6000 {
      TopNibblePatternDecodes(op, LoadImmediate);
    } else if g == 0x7000 {
      TopNibblePatternDecodes(op, AddImmediate);
    } else {
      TopNibblePatternDecodes(op, SkipIfRegistersNotEqual);
    }
  }

  /** `TopNibbleOnlyMatches` for groups 0xA to 0xD. */
  lemma IndexGroupsMatch(op: bv16)
    requires Group(op) in {0xA000, 0xB000, 0xC000, 0xD000}
    ensures Decode(op).Ok? && Matches(Decode(op).value.kind, op)
  {
    var g := Group(op);
    if g == 0xA000 {
      TopNibblePatternDecodes(op, SetIndex);
    } else if g == 0xB000 {
      TopNibblePatternDecodes(op, JumpWithOffset);
    } else if g == 0xC000 {
      TopNibblePatternDecodes(op, Random);
    } else {
      TopNibblePatternDecodes(op, DrawSprite);
    }
  }

  /** Group 0x0 accepts exactly the bottom nibbles 0x0, 0x1 and 0xE; bits
      4-11 play no part. */
  lemma SystemGroup(op: bv16)
    requires Group(op) == 0x0000
    ensures Decode(op).Ok? <==> op & 0x000F in {0x0000, 0x0001, 0x000E}
    ensures Decode(op).Ok? <==> Decode(op & 0x000F).Ok?
    ensures Decode(op).Ok? ==> Decode(op).value.kind == Decode(op & 0x000F).value.kind
    ensures Decode(op).Ok? ==> Matches(Decode(op).value.kind, op)
  {
  }

  /** Group 0x8 accepts exactly the bottom nibbles 0-7 and 0xE. */
  lemma ArithmeticGroup(op: bv16)
    requires Group(op) == 0x8000
    ensures Decode(op).Ok? <==> op & 0x000F in {0, 1, 2, 3, 4, 5, 6, 7, 0xE}
    ensures Decode(op).Ok? ==> Matches(Decode(op).value.kind, op)
  {
  }

  /** Group 0xE: 0xE selects skip-if-pressed, 0x1 skip-if-not-pressed. */
  lemma KeyGroup(op: bv16)
    requires Group(op) == 0xE000
    ensures op & 0x000F == 0x000E <==> Decode(op) == Ok(Instruction(SkipIfKeyPressed, op))
    ensures op & 0x000F == 0x0001 <==> Decode(op) == Ok(Instruction(SkipIfKeyNotPressed, op))
    ensures Decode(op).Ok? <==> op & 0x000F in {0x0001, 0x000E}
    ensures Decode(op).Ok? ==> Matches(Decode(op).value.kind, op)
  {
  }

  /** Group 0xF accepts the bottom nibbles 3, 5, 7, 8, 9, 0xA and 0xE, and
      for bottom nibble 5 only bits 4-7 equal to 1, 5 or 6. */
  lemma MiscGroup(op: bv16)
    requires Group(op) == 0xF000
    ensures Decode(op).Ok? <==>
      (op & 0x000F in {3, 7, 8, 9, 0xA, 0xE}
       || (op & 0x000F == 5 && op & 0x00F0 in {0x10, 0x50, 0x60}))
    ensures Decode(op).Ok? ==> Matches(Decode(op).value.kind, op)
  {
  }
}

/** The CHIP-8 machine state and its instruction cycle (cpu/main.go,
    cpu/instruction.go).

    `State` is the `CPU` struct with its Go arrays as fixed-length
    sequences. `DoCycle` is fetch, decode, execute and the delay-timer
    decrement. Only the handler of ANNN is part of this model; every other
    handler is an opaque transition, supplied by the caller as a `Handler`.
 */
module Cpu {
  import opened Results
  import opened Decoder

  const MemorySize: int := 4096
  const ScreenSize: int := 64 * 32

  /** Where programs are loaded and execution starts. */
  const ProgramStart: int := 0x200

  /** The largest ROM `LoadRom` accepts: 0xEA0 - 0x200 bytes. */
  const MaxRomSize: int := 3232

  /** An unsigned 8-bit counter (the Go `uint8` timers). */
  type Byte = x: int | 0 <= x < 256

  type Memory = m: seq<bv8> | |m| == MemorySize witness seq(4096, _ => 0 as bv8)
  type Registers = v: seq<bv8> | |v| == 16 witness seq(16, _ => 0 as bv8)
  type Screen = s: seq<bv8> | |s| == ScreenSize witness seq(2048, _ => 0 as bv8)
  type Stack = s: seq<bv16> | |s| == 16 witness seq(16, _ => 0 as bv16)
  type Keypad = k: seq<bv8> | |k| == 16 witness seq(16, _ => 0 as bv8)

  /** The fields of the `CPU` struct, except the breakpoint callback. */
  datatype State = State(
    memory: Memory,
    register: Registers,
    indexRegister: bv16,
    programCounter: bv16,
    screen: Screen,
    delayTimer: Byte,
    soundTimer: Byte,
    stack: Stack,
    stackPointer: bv16,
    keypadStates: Keypad,
    shouldDraw: bool)

  /** The zero value of the struct, as `new(cpu.CPU)` returns it. */
  function Zero(): (c: State)
    ensures IsCleared(c)
    ensures forall a :: 0 <= a < MemorySize ==> c.memory[a] == 0
    ensures c.programCounter == 0 && c.indexRegister == 0
  {
    State(seq(4096, _ => 0), seq(16, _ => 0), 0, 0, seq(2048, _ => 0), 0, 0,
          seq(16, _ => 0), 0, seq(16, _ => 0), false)
  }

  /** Every field other than memory and pc at its zero value: registers,
      I, screen, timers, stack, stack pointer, keypad and draw flag. */
  predicate IsCleared(c: State) {
    && (forall i :: 0 <= i < 16 ==> c.register[i] == 0)
    && c.indexRegister == 0
    && (forall i :: 0 <= i < ScreenSize ==> c.screen[i] == 0)
    && c.delayTimer == 0 && c.soundTimer == 0
    && (forall i :: 0 <= i < 16 ==> c.stack[i] == 0)
    && c.stackPointer == 0
    && (forall i :: 0 <= i < 16 ==> c.keypadStates[i] == 0)
    && !c.shouldDraw
  }

  /** Two bytes combined big-endian, `uint16(hi)<<8 | uint16(lo)`. */
  function Join(hi: bv8, lo: bv8): (w: bv16)
    ensures w == (hi as bv16) * 256 + (lo as bv16)
  {
    ((hi as bv16) << 8) | (lo as bv16)
  }

  /** The high and low byte of a word. */
  function Split(w: bv16): (bv8, bv8) {
    ((w / 256) as bv8, (w % 256) as bv8)
  }

  /** Joining two bytes and splitting the word gives the bytes back. */
  lemma JoinThenSplit(hi: bv8, lo: bv8)
    ensures Split(Join(hi, lo)) == (hi, lo)
    ensures Join(hi, lo) / 256 == hi as bv16 && Join(hi, lo) % 256 == lo as bv16
  {
  }

  /** Splitting a word and joining the bytes gives the word back. */
  lemma SplitThenJoin(w: bv16)
    ensures Join(Split(w).0, Split(w).1) == w
  {
  }

  /** Reads the word at pc: Memory[pc] is the high byte and Memory[pc+1]
      the low byte. Reading past the 4096-byte memory panics in Go. */
  function Fetch(c: State): (r: Result<bv16>)
    ensures r.Ok? <==> c.programCounter as int + 1 < MemorySize
    ensures r.Err? ==> r.fault.IndexOutOfRange? && r.fault.index >= MemorySize
    ensures r.Ok? ==> r.value / 256 == c.memory[c.programCounter] as bv16
    ensures r.Ok? ==> r.value % 256 == c.memory[c.programCounter as int + 1] as bv16
  {
    var pc := c.programCounter as int;
    if pc >= MemorySize then Err(IndexOutOfRange(pc))
    else if pc + 1 >= MemorySize then Err(IndexOutOfRange(pc + 1))
    else
      JoinThenSplit(c.memory[pc], c.memory[pc + 1]);
      Ok(Join(c.memory[pc], c.memory[pc + 1]))
  }

  /** ANNN: I takes the low twelve bits of the word and pc moves to the
      next instruction, with 16-bit wrap-around. */
  function DoANNN(c: State, op: bv16): (r: State)
    ensures r.indexRegister <= 0x0FFF
    ensures r.indexRegister == op % 0x1000
    ensures r.programCounter - c.programCounter == 2
    ensures c.programCounter <= 0xFFFD ==> r.programCounter > c.programCounter
    ensures r.memory == c.memory && r.register == c.register && r.screen == c.screen
    ensures r.delayTimer == c.delayTimer && r.soundTimer == c.soundTimer
    ensures r.stack == c.stack && r.stackPointer == c.stackPointer
    ensures r.keypadStates == c.keypadStates && r.shouldDraw == c.shouldDraw
  {
    c.(indexRegister := op & 0x0FFF, programCounter := c.programCounter + 2)
  }

  /** Words that differ only in the top nibble set the same I. */
  lemma DoANNNIgnoresTopNibble(c: State, op1: bv16, op2: bv16)
    requires op1 & 0x0FFF == op2 & 0x0FFF
    ensures DoANNN(c, op1) == DoANNN(c, op2)
  {
  }

  /** Running ANNN twice leaves I as after once, with pc 4 further on. */
  lemma DoANNNTwice(c: State, op: bv16)
    ensures DoANNN(DoANNN(c, op), op).indexRegister == DoANNN(c, op).indexRegister
    ensures DoANNN(DoANNN(c, op), op) == DoANNN(c, op).(programCounter := c.programCounter + 4)
  {
  }

  /** The instruction handlers other than ANNN, whose bodies are not part
      of this model. A handler may fail (a stack overflow, say). */
  type Handler = (State, Instruction) -> Result<State>

  /** Dispatches a decoded instruction to its handler. */
  function Execute(c: State, ins: Instruction, others: Handler): (r: Result<State>)
    ensures ins.kind == SetIndex ==>
      && r.Ok?
      && r.value.indexRegister == ins.op & 0x0FFF
      && r.value.programCounter == c.programCounter + 2
      && r.value == c.(indexRegister := r.value.indexRegister, programCounter := r.value.programCounter)
    ensures ins.kind != SetIndex ==> r == others(c, ins)
  {
    if ins.kind == SetIndex then Ok(DoANNN(c, ins.op)) else others(c, ins)
  }

  /** The decrement that ends every successful cycle: one step towards
      zero, never wrapping below it. */
  function DecrementDelay(c: State): (r: State)
    ensures c.delayTimer == 0 ==> r.delayTimer == 0
    ensures c.delayTimer > 0 ==> r.delayTimer == c.delayTimer - 1
    ensures r == c.(delayTimer := r.delayTimer)
  {
    if c.delayTimer > 0 then c.(delayTimer := c.delayTimer - 1) else c
  }

  /** `n` cycles' worth of delay-timer decrements. */
  function DecrementDelayTimes(c: State, n: nat): State
    decreases n
  {
    if n == 0 then c else DecrementDelayTimes(DecrementDelay(c), n - 1)
  }

  /** After `n` decrements the delay timer is `max(0, delay - n)`: it counts
      down to zero and stays there. */
  lemma {:induction false} DelayCountsDownToZero(c: State, n: nat)
    ensures DecrementDelayTimes(c, n).delayTimer == if c.delayTimer <= n then 0 else c.delayTimer - n
    ensures DecrementDelayTimes(c, n) == c.(delayTimer := DecrementDelayTimes(c, n).delayTimer)
    decreases n
  {
    if n > 0 {
      DelayCountsDownToZero(DecrementDelay(c), n - 1);
    }
  }

  /** One fetch-decode-execute cycle. */
  function DoCycle(c: State, others: Handler): (r: Result<State>)
    ensures Fetch(c).Err? ==> r == Err(Fetch(c).fault)
    ensures Fetch(c).Ok? && Decode(Fetch(c).value).Err? ==> r == Err(UnknownOpcode(Fetch(c).value))
    ensures r.Ok? <==>
      && Fetch(c).Ok? && Decode(Fetch(c).value).Ok?
      && Execute(c, Decode(Fetch(c).value).value, others).Ok?
    ensures (Fetch(c).Ok? && Decode(Fetch(c).value).Ok?
             && Execute(c, Decode(Fetch(c).value).value, others).Err?) ==>
      r == Err(Execute(c, Decode(Fetch(c).value).value, others).fault)
    ensures r.Ok? ==>
      var next := Execute(c, Decode(Fetch(c).value).value, others);
      && next.Ok?
      && r.value == next.value.(delayTimer := r.value.delayTimer)
      && (next.value.delayTimer == 0 ==> r.value.delayTimer == 0)
      && (next.value.delayTimer > 0 ==> r.value.delayTimer == next.value.delayTimer - 1)
  {
    var op :- Fetch(c);
    var ins :- Decode(op);
    var next :- Execute(c, ins, others);
    Ok(DecrementDelay(next))
  }

  /** The cycle on `c` dispatches to the 0001 breakpoint handler, which
      calls `StopForDebuggingCallback`. */
  predicate AtBreakpoint(c: State) {
    && Fetch(c).Ok? && Decode(Fetch(c).value).Ok?
    && Decode(Fetch(c).value).value.kind == Breakpoint
  }

  /** A word no row of the opcode table fits stops the cycle with an error
      naming it, whatever the other handlers do. */
  lemma CycleRejectsUnmatchedWord(c: State, others: Handler)
    requires Fetch(c).Ok?
    requires forall k :: !Matches(k, Fetch(c).value)
    ensures DoCycle(c, others) == Err(UnknownOpcode(Fetch(c).value))
  {
    DecodeRejectsExactlyUnmatched(Fetch(c).value);
  }

  /** A cycle on an ANNN word is fully determined: I gets NNN, pc moves on
      by 2, the delay timer counts down, and nothing else changes. */
  lemma CycleOnSetIndex(c: State, others: Handler)
    requires Fetch(c).Ok? && Group(Fetch(c).value) == 0xA000
    ensures DoCycle(c, others).Ok?
    ensures DoCycle(c, others).value
         == DecrementDelay(c).(indexRegister := Fetch(c).value & 0x0FFF,
                               programCounter := c.programCounter + 2)
  {
    var op := Fetch(c).value;
    TopNibblePatternDecodes(op, SetIndex);
    assert Execute(c, Instruction(SetIndex, op), others) == Ok(DoANNN(c, op));
    assert DoCycle(c, others) == Ok(DecrementDelay(DoANNN(c, op)));
  }

  /** `Boot`: pc starts at 0x200 and the fontset is copied to the bottom
      of memory. */
  method Boot(c: State, fontset: seq<bv8>) returns (r: State)
    requires |fontset| <= MemorySize
    ensures r.programCounter as int == ProgramStart
    ensures forall a :: 0 <= a < |fontset| ==> r.memory[a] == fontset[a]
    ensures forall a :: |fontset| <= a < MemorySize ==> r.memory[a] == c.memory[a]
    ensures r == c.(programCounter := r.programCounter, memory := r.memory)
  {
    var memory := c.memory;
    for i := 0 to |fontset|
      invariant |memory| == MemorySize
      invariant forall a :: 0 <= a < i ==> memory[a] == fontset[a]
      invariant forall a :: i <= a < MemorySize ==> memory[a] == c.memory[a]
    {
      memory := memory[i := fontset[i]];
    }
    r := c.(programCounter := 0x200, memory := memory);
  }

  /** `LoadROM` after the file has been read: a ROM longer than 3232 bytes
      is refused, any other is copied to 0x200 onwards. */
  method LoadRom(c: State, rom: seq<bv8>) returns (r: Result<State>)
    ensures r.Err? <==> |rom| > MaxRomSize
    ensures r.Err? ==> r.fault == RomTooLarge(|rom|)
    ensures r.Ok? ==> forall i :: 0 <= i < |rom| ==> r.value.memory[ProgramStart + i] == rom[i]
    ensures r.Ok? ==> forall a :: 0 <= a < ProgramStart ==> r.value.memory[a] == c.memory[a]
    ensures r.Ok? ==> forall a :: ProgramStart + |rom| <= a < MemorySize ==> r.value.memory[a] == c.memory[a]
    ensures r.Ok? ==> forall a :: ProgramStart + MaxRomSize <= a < MemorySize ==> r.value.memory[a] == c.memory[a]
    ensures r.Ok? ==> r.value == c.(memory := r.value.memory)
  {
    if |rom| > MaxRomSize {
      return Err(RomTooLarge(|rom|));
    }
    var memory := c.memory;
    for i := 0 to |rom|
      invariant |memory| == MemorySize
      invariant forall j :: 0 <= j < i ==> memory[ProgramStart + j] == rom[j]
      invariant forall a :: 0 <= a < ProgramStart ==> memory[a] == c.memory[a]
      invariant forall a :: ProgramStart + i <= a < MemorySize ==> memory[a] == c.memory[a]
    {
      memory := memory[ProgramStart + i := rom[i]];
    }
    r := Ok(c.(memory := memory));
  }

  /** The start of `StartEmulation`: a zeroed CPU, `Boot`, then `LoadROM`.
      The fontset is the 80-byte table kept below the program area. */
  method Start(fontset: seq<bv8>, rom: seq<bv8>) returns (r: Result<State>)
    requires |fontset| <= ProgramStart
    ensures r.Err? <==> |rom| > MaxRomSize
    ensures r.Ok? ==> r.value.programCounter as int == ProgramStart
    ensures r.Ok? ==> forall a :: 0 <= a < |fontset| ==> r.value.memory[a] == fontset[a]
    ensures r.Ok? ==> forall i :: 0 <= i < |rom| ==> r.value.memory[ProgramStart + i] == rom[i]
    ensures r.Ok? ==> forall a :: |fontset| <= a < ProgramStart ==> r.value.memory[a] == 0
    ensures r.Ok? ==> forall a :: ProgramStart + |rom| <= a < MemorySize ==> r.value.memory[a] == 0
    ensures r.Ok? ==> IsCleared(r.value)
  {
    var booted := Boot(Zero(), fontset);
    r := LoadRom(booted, rom);
  }
}

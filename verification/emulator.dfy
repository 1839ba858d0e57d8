/** The host side (emulator/main.go): the per-frame `Update`, the
    index-to-pixel mapping of `Draw`, and the callbacks `createDebugger`
    hands to the debugger shell.

    Pressed keys arrive as the set of key names the host reports pressed.
    The audio player is reduced to the `Play`/`Pause` calls made on it,
    which `Update` reports as events.
 */
module Emulator {
  import opened Results
  import opened Decoder
  import opened Cpu
  import opened Debugger

  /** The `Emulator` struct; `hasDebugger` stands for `debug != nil`. */
  datatype Emulator = Emulator(
    cpu: State,
    beepAudioTimer: int,
    hasDebugger: bool,
    pause: bool)

  /** The calls `Update` makes on the beep player. */
  datatype Event = PlayBeep | PauseBeep

  // ---------------------------------------------------------------------
  // Keypad

  /** The switch on key names: the hex keypad laid out on the left of a
      QWERTY keyboard. */
  function KeypadIndex(name: string): (r: Option<int>)
    ensures r.Some? <==> name in KeyNames
    ensures r.Some? ==> 0 <= r.value < 16
  {
    if name == "1" then Some(0)
    else if name == "2" then Some(1)
    else if name == "3" then Some(2)
    else if name == "4" then Some(3)
    else if name == "Q" then Some(4)
    else if name == "W" then Some(5)
    else if name == "E" then Some(6)
    else if name == "R" then Some(7)
    else if name == "A" then Some(8)
    else if name == "S" then Some(9)
    else if name == "D" then Some(10)
    else if name == "F" then Some(11)
    else if name == "Z" then Some(12)
    else if name == "X" then Some(13)
    else if name == "C" then Some(14)
    else if name == "V" then Some(15)
    else None
  }

  /** The same layout read the other way: the key name of each entry. */
  const KeyNames: seq<string> :=
    ["1", "2", "3", "4", "Q", "W", "E", "R", "A", "S", "D", "F", "Z", "X", "C", "V"]

  /** The switch and the layout table agree, so the switch maps exactly
      sixteen names onto 0..15, one each. */
  lemma KeypadIndexInvertsKeyNames(name: string, k: int)
    ensures KeypadIndex(name) == Some(k) <==> 0 <= k < 16 && name == KeyNames[k]
  {
    if 0 <= k < 16 && name == KeyNames[k] {
      // Split the sixteen entries into four groups of four, so that each
      // case only has to unfold four branches of the switch.
      if k < 8 {
        if k < 4 {} else {}
      } else {
        if k < 12 {} else {}
      }
    }
  }

  /** No two key names reach the same keypad entry. */
  lemma KeypadIndexInjective(a: string, b: string)
    requires KeypadIndex(a).Some? && KeypadIndex(a) == KeypadIndex(b)
    ensures a == b
  {
    KeypadIndexInvertsKeyNames(a, KeypadIndex(a).value);
    KeypadIndexInvertsKeyNames(b, KeypadIndex(a).value);
  }

  /** The keypad phase of `Update`: every entry reset to 0, then set to 1
      for each pressed key the switch maps to it. */
  function ScanKeypad(pressed: set<string>): (k: Keypad)
    ensures forall i :: 0 <= i < 16 ==> k[i] == 0 || k[i] == 1
  {
    seq(16, i requires 0 <= i < 16 => if KeyNames[i] in pressed then 1 else 0)
  }

  /** Entry `i` is 1 exactly when some pressed key maps to `i`. */
  lemma ScanKeypadReflectsPressedKeys(pressed: set<string>, i: int)
    requires 0 <= i < 16
    ensures ScanKeypad(pressed)[i] == 1
        <==> exists name :: name in pressed && KeypadIndex(name) == Some(i)
  {
    KeypadIndexInvertsKeyNames(KeyNames[i], i);
    if exists name :: name in pressed && KeypadIndex(name) == Some(i) {
      var name :| name in pressed && KeypadIndex(name) == Some(i);
      KeypadIndexInvertsKeyNames(name, i);
    }
  }

  /** The "0" and "KP0" keys, which open the debugger shell. */
  predicate RequestsPause(pressed: set<string>) {
    "0" in pressed || "KP0" in pressed
  }

  /** The state after the key loop of `Update`. */
  function KeyPhase(e: Emulator, pressed: set<string>): (r: Emulator)
    ensures r.cpu == e.cpu.(keypadStates := ScanKeypad(pressed))
    ensures r.pause <==> e.pause || (e.hasDebugger && RequestsPause(pressed))
    ensures r.beepAudioTimer == e.beepAudioTimer && r.hasDebugger == e.hasDebugger
  {
    var cpu := e.cpu.(keypadStates := ScanKeypad(pressed));
    if e.hasDebugger && RequestsPause(pressed) then e.(cpu := cpu, pause := true)
    else e.(cpu := cpu)
  }

  // ---------------------------------------------------------------------
  // Sound timer and beep counter

  datatype Sound = Sound(soundTimer: Byte, beepAudioTimer: int, events: seq<Event>)

  /** The sound-timer block of `Update`: the sound timer counts down; when
      it goes from 1 to 0 the beep starts and lasts 25 frames, counting
      this one. */
  function SoundTick(soundTimer: Byte, beep: int): (r: Sound)
    ensures soundTimer > 0 ==> r.soundTimer == soundTimer - 1
    ensures soundTimer == 0 ==> r.soundTimer == 0
    ensures PlayBeep in r.events <==> soundTimer == 1
    ensures soundTimer == 1 ==> r.beepAudioTimer == 24
    ensures PauseBeep in r.events <==> soundTimer != 1 && beep == 1
    ensures PauseBeep in r.events ==> r.beepAudioTimer == 0
    ensures soundTimer != 1 && beep > 0 ==> r.beepAudioTimer == beep - 1
    ensures soundTimer != 1 && beep <= 0 ==> r.beepAudioTimer == beep
    ensures beep >= 0 ==> r.beepAudioTimer >= 0
    ensures 0 <= beep <= 25 ==> 0 <= r.beepAudioTimer <= 24
    ensures |r.events| <= 1
  {
    if soundTimer > 0 || beep > 0 then
      var started := if soundTimer == 1 then 25 else beep;
      var play := if soundTimer == 1 then [PlayBeep] else [];
      var sound := if soundTimer > 0 then soundTimer - 1 else soundTimer;
      if started > 0 then
        var stop := if started == 1 then [PauseBeep] else [];
        Sound(sound, started - 1, play + stop)
      else
        Sound(sound, started, play)
    else
      Sound(soundTimer, beep, [])
  }

  /** `n` unpaused frames of the sound block, with their events in order. */
  function SoundTicks(soundTimer: Byte, beep: int, n: nat): Sound
    decreases n
  {
    if n == 0 then Sound(soundTimer, beep, [])
    else
      var first := SoundTick(soundTimer, beep);
      var rest := SoundTicks(first.soundTimer, first.beepAudioTimer, n - 1);
      Sound(rest.soundTimer, rest.beepAudioTimer, first.events + rest.events)
  }

  /** A running beep with `beep` frames left is paused after exactly that
      many frames, once. */
  lemma {:induction false} BeepDrains(beep: nat)
    requires beep >= 1
    ensures SoundTicks(0, beep, beep) == Sound(0, 0, [PauseBeep])
    decreases beep
  {
    if beep > 1 {
      BeepDrains(beep - 1);
    }
  }

  /** Setting the sound timer to `n` from silence gives one beep: it starts
      on frame `n` and stops 24 frames later. */
  lemma {:induction false} OneBeepPerCountdown(n: Byte)
    requires n >= 1
    ensures SoundTicks(n, 0, n + 24) == Sound(0, 0, [PlayBeep, PauseBeep])
    decreases n
  {
    if n == 1 {
      BeepDrains(24);
      assert [PlayBeep] + [PauseBeep] == [PlayBeep, PauseBeep];
    } else {
      OneBeepPerCountdown(n - 1);
    }
  }

  // ---------------------------------------------------------------------
  // Update

  /** What one call of `Update` leaves behind. */
  datatype Frame = Frame(emulator: Emulator, events: seq<Event>)

  /** The CPU state `Update` runs `DoCycle` on: keys scanned, sound timer
      ticked. */
  function CycleInput(e: Emulator, pressed: set<string>): (c: State)
    ensures c == e.cpu.(keypadStates := ScanKeypad(pressed), soundTimer := c.soundTimer)
    ensures c.soundTimer == SoundTick(e.cpu.soundTimer, e.beepAudioTimer).soundTimer
  {
    KeyPhase(e, pressed).cpu.(soundTimer := SoundTick(e.cpu.soundTimer, e.beepAudioTimer).soundTimer)
  }

  /** One frame: scan the keys, and unless paused tick the sound timer and
      beep counter and run one instruction cycle. `others` stands for the
      instruction handlers that are not part of this model. A cycle on the
      0001 breakpoint calls `StopForDebuggingCallback`, which pauses the
      emulator when a debugger is attached. */
  function Update(e: Emulator, pressed: set<string>, others: Handler): (r: Result<Frame>)
    ensures KeyPhase(e, pressed).pause ==> r == Ok(Frame(KeyPhase(e, pressed), []))
    ensures !KeyPhase(e, pressed).pause ==>
      (r.Ok? <==> DoCycle(CycleInput(e, pressed), others).Ok?)
    ensures !KeyPhase(e, pressed).pause && r.Ok? ==>
      && r.value.emulator.cpu == DoCycle(CycleInput(e, pressed), others).value
      && r.value.events == SoundTick(e.cpu.soundTimer, e.beepAudioTimer).events
      && r.value.emulator.beepAudioTimer == SoundTick(e.cpu.soundTimer, e.beepAudioTimer).beepAudioTimer
      && (r.value.emulator.pause <==> e.hasDebugger && AtBreakpoint(CycleInput(e, pressed)))
    ensures !KeyPhase(e, pressed).pause && DoCycle(CycleInput(e, pressed), others).Err? ==>
      r == Err(DoCycle(CycleInput(e, pressed), others).fault)
    ensures r.Ok? ==> r.value.emulator.hasDebugger == e.hasDebugger
  {
    var keyed := KeyPhase(e, pressed);
    if keyed.pause then
      Ok(Frame(keyed, []))
    else
      var sound := SoundTick(keyed.cpu.soundTimer, keyed.beepAudioTimer);
      var input := keyed.cpu.(soundTimer := sound.soundTimer);
      var cpu :- DoCycle(input, others);
      var stopped := keyed.hasDebugger && AtBreakpoint(input);
      Ok(Frame(keyed.(cpu := cpu, beepAudioTimer := sound.beepAudioTimer, pause := stopped), sound.events))
  }

  /** While paused a frame only rescans the keypad: timers, beep counter
      and CPU stay as they are and no cycle runs, whatever the handlers. */
  lemma PausedFrameOnlyScansKeys(e: Emulator, pressed: set<string>, others: Handler)
    requires e.pause
    ensures Update(e, pressed, others)
         == Ok(Frame(e.(cpu := e.cpu.(keypadStates := ScanKeypad(pressed))), []))
  {
  }

  /** Without a debugger the "0"/"KP0" keys do nothing at all. */
  lemma PauseKeyNeedsDebugger(e: Emulator, pressed: set<string>, others: Handler)
    requires !e.hasDebugger
    ensures Update(e, pressed, others) == Update(e, pressed - {"0", "KP0"}, others)
  {
    assert ScanKeypad(pressed) == ScanKeypad(pressed - {"0", "KP0"});
  }

  /** With a debugger the "0" key pauses the emulator in the same frame,
      before any cycle runs. */
  lemma PauseKeyPausesAtOnce(e: Emulator, pressed: set<string>, others: Handler)
    requires e.hasDebugger && RequestsPause(pressed)
    ensures Update(e, pressed, others).Ok?
    ensures Update(e, pressed, others).value.emulator.pause
    ensures Update(e, pressed, others).value.emulator.cpu
         == e.cpu.(keypadStates := ScanKeypad(pressed))
  {
  }

  /** A frame that runs a breakpoint word (top and bottom nibble 0 and 1,
      as the switch checks) with a debugger attached ends
      paused, so the next frame only rescans the keys; without a debugger
      the emulator keeps running. */
  lemma BreakpointStopsForDebugging(e: Emulator, pressed: set<string>, next: set<string>, others: Handler)
    requires !KeyPhase(e, pressed).pause
    requires Fetch(e.cpu).Ok? && Group(Fetch(e.cpu).value) == 0x0000
    requires Fetch(e.cpu).value & 0x000F == 0x0001
    requires Update(e, pressed, others).Ok?
    ensures Update(e, pressed, others).value.emulator.pause <==> e.hasDebugger
    ensures e.hasDebugger ==>
      var stopped := Update(e, pressed, others).value.emulator;
      Update(stopped, next, others) == Ok(Frame(KeyPhase(stopped, next), []))
  {
    var input := CycleInput(e, pressed);
    assert Fetch(input) == Fetch(e.cpu);
    SystemGroup(Fetch(e.cpu).value);
  }

  /** An unpaused frame whose instruction is ANNN: the sound timer counts
      down by one (stopping at 0), the delay timer likewise, I gets NNN and
      pc moves on by 2. */
  lemma FrameOnSetIndex(e: Emulator, pressed: set<string>, others: Handler)
    requires !KeyPhase(e, pressed).pause
    requires Fetch(e.cpu).Ok? && Group(Fetch(e.cpu).value) == 0xA000
    ensures Update(e, pressed, others).Ok?
    ensures var c := Update(e, pressed, others).value.emulator.cpu;
      && c.soundTimer == (if e.cpu.soundTimer > 0 then e.cpu.soundTimer - 1 else 0)
      && c.delayTimer == (if e.cpu.delayTimer > 0 then e.cpu.delayTimer - 1 else 0)
      && c.indexRegister == Fetch(e.cpu).value & 0x0FFF
      && c.programCounter == e.cpu.programCounter + 2
      && c.keypadStates == ScanKeypad(pressed)
      && c.memory == e.cpu.memory && c.register == e.cpu.register
  {
    var input := CycleInput(e, pressed);
    assert Fetch(input) == Fetch(e.cpu);
    CycleOnSetIndex(input, others);
    var c := DoCycle(input, others).value;
    assert c.soundTimer == input.soundTimer && c.keypadStates == input.keypadStates;
    assert Update(e, pressed, others).value.emulator.cpu == c;
  }

  // ---------------------------------------------------------------------
  // Draw

  datatype Color = White | Black

  /** The pixel `s.Set(i%64, i/64, _)` paints for screen cell `i`. */
  function Coord(i: int): (int, int) {
    (i % 64, i / 64)
  }

  /** The screen cell of pixel `p`. */
  function Index(p: (int, int)): int {
    p.1 * 64 + p.0
  }

  predicate InGrid(p: (int, int)) {
    0 <= p.0 < 64 && 0 <= p.1 < 32
  }

  /** Cells and pixels correspond one to one. */
  lemma CoordIndexBijection(i: int, p: (int, int))
    ensures 0 <= i < ScreenSize ==> InGrid(Coord(i)) && Index(Coord(i)) == i
    ensures InGrid(p) ==> 0 <= Index(p) < ScreenSize && Coord(Index(p)) == p
  {
  }

  /** The colour of a cell: black when 0, white otherwise. */
  function ColorOf(v: bv8): Color {
    if v == 0 then Black else White
  }

  /** What `Draw` has painted once it has visited the cells before `i`. */
  predicate PaintedUpTo(image: map<(int, int), Color>, screen: Screen, i: int) {
    && (forall p :: p in image ==> InGrid(p) && Index(p) < i)
    && (forall j :: 0 <= j < i ==> Coord(j) in image && image[Coord(j)] == ColorOf(screen[j]))
  }

  /** Painting cell `i` keeps every earlier pixel: no two cells share one. */
  lemma PaintCell(image: map<(int, int), Color>, screen: Screen, i: int)
    requires 0 <= i < ScreenSize && PaintedUpTo(image, screen, i)
    ensures PaintedUpTo(image[Coord(i) := ColorOf(screen[i])], screen, i + 1)
  {
    var painted := image[Coord(i) := ColorOf(screen[i])];
    CoordIndexBijection(i, (0, 0));
    forall j | 0 <= j < i
      ensures Coord(j) in painted && painted[Coord(j)] == ColorOf(screen[j])
    {
      CoordIndexBijection(j, (0, 0));
    }
  }

  /** `Draw`: the screen painted onto the 64x32 image, pixel (x, y) from
      cell y * 64 + x. */
  method Draw(screen: Screen) returns (image: map<(int, int), Color>)
    ensures forall p :: p in image ==> InGrid(p)
    ensures forall p :: InGrid(p) ==>
      p in image && (image[p] == White <==> screen[Index(p)] != 0)
  {
    image := map[];
    for i := 0 to |screen|
      invariant PaintedUpTo(image, screen, i)
    {
      PaintCell(image, screen, i);
      image := image[Coord(i) := ColorOf(screen[i])];
    }
    PaintedEverything(image, screen);
  }

  /** Once every cell is painted, every pixel of the grid is, in its cell's
      colour. */
  lemma PaintedEverything(image: map<(int, int), Color>, screen: Screen)
    requires PaintedUpTo(image, screen, ScreenSize)
    ensures forall p :: InGrid(p) ==>
      p in image && (image[p] == White <==> screen[Index(p)] != 0)
  {
    forall p | InGrid(p)
      ensures p in image && (image[p] == White <==> screen[Index(p)] != 0)
    {
      CoordIndexBijection(0, p);
    }
  }

  // ---------------------------------------------------------------------
  // Debugger callbacks

  /** `ResumeEmulationCallback`. */
  function Resume(e: Emulator): (r: (Emulator, bool))
    ensures r.1 <==> e.pause
    ensures !r.0.pause
    ensures r.0 == e.(pause := r.0.pause)
  {
    if !e.pause then (e, false) else (e.(pause := false), true)
  }

  /** `PauseEmulationCallback`. */
  function Pause(e: Emulator): (r: (Emulator, bool))
    ensures r.1 <==> !e.pause
    ensures r.0.pause
    ensures r.0 == e.(pause := r.0.pause)
  {
    if e.pause then (e, false) else (e.(pause := true), true)
  }

  /** Pausing a running emulator and resuming it gives it back unchanged,
      and both calls report success. */
  lemma PauseThenResume(e: Emulator)
    requires !e.pause
    ensures Pause(e).1 && Resume(Pause(e).0).1
    ensures Resume(Pause(e).0).0 == e
  {
  }

  /** `GetRegisterCallback`. */
  function GetRegisters(e: Emulator): Registers {
    e.cpu.register
  }

  /** `GetTimerCallback`: delay timer first, sound timer second. */
  function GetTimers(e: Emulator): seq<Byte> {
    [e.cpu.delayTimer, e.cpu.soundTimer]
  }

  /** `SetRegisterCallback`: an index beyond VF panics in Go. */
  function SetRegister(e: Emulator, index: bv8, value: bv8): (r: Result<Emulator>)
    ensures r.Ok? <==> index < 16
    ensures r.Err? ==> r.fault == IndexOutOfRange(index as int)
    ensures r.Ok? ==> r.value == e.(cpu := e.cpu.(register := r.value.cpu.register))
    ensures r.Ok? ==> forall i :: 0 <= i < 16 && i != index as int ==>
      r.value.cpu.register[i] == e.cpu.register[i]
  {
    if index < 16 then Ok(e.(cpu := e.cpu.(register := e.cpu.register[index := value])))
    else Err(IndexOutOfRange(index as int))
  }

  /** Reading the registers back after a successful set shows the value. */
  lemma SetRegisterThenGet(e: Emulator, index: bv8, value: bv8)
    requires index < 16
    ensures GetRegisters(SetRegister(e, index, value).value)[index] == value
  {
  }

  /** `SetTimerCallback`. */
  function SetTimer(e: Emulator, isDelayTimer: bool, value: bv8): (r: Emulator)
    ensures isDelayTimer ==> r.cpu.delayTimer == value as int && r.cpu.soundTimer == e.cpu.soundTimer
    ensures !isDelayTimer ==> r.cpu.soundTimer == value as int && r.cpu.delayTimer == e.cpu.delayTimer
    ensures r == e.(cpu := e.cpu.(delayTimer := r.cpu.delayTimer, soundTimer := r.cpu.soundTimer))
  {
    if isDelayTimer then e.(cpu := e.cpu.(delayTimer := value as int))
    else e.(cpu := e.cpu.(soundTimer := value as int))
  }

  /** Reading the timers back after a set shows the value in the slot that
      was set and the other slot unchanged. */
  lemma SetTimerThenGet(e: Emulator, isDelayTimer: bool, value: bv8)
    ensures GetTimers(SetTimer(e, isDelayTimer, value))[if isDelayTimer then 0 else 1] == value as int
    ensures GetTimers(SetTimer(e, isDelayTimer, value))[if isDelayTimer then 1 else 0]
         == GetTimers(e)[if isDelayTimer then 1 else 0]
  {
  }

  /** `SetICallback`. */
  function SetIndexRegister(e: Emulator, value: bv16): (r: Emulator)
    ensures r.cpu.indexRegister == value
    ensures r == e.(cpu := e.cpu.(indexRegister := r.cpu.indexRegister))
  {
    e.(cpu := e.cpu.(indexRegister := value))
  }

  /** `SetPcCallback`. */
  function SetProgramCounter(e: Emulator, value: bv16): (r: Emulator)
    ensures r.cpu.programCounter == value
    ensures r == e.(cpu := e.cpu.(programCounter := r.cpu.programCounter))
  {
    e.(cpu := e.cpu.(programCounter := value))
  }

  /** After `spc`, the next cycle fetches the word at the new pc. */
  lemma SetProgramCounterThenFetch(e: Emulator, value: bv16)
    requires value as int + 1 < MemorySize
    ensures Fetch(SetProgramCounter(e, value).cpu)
         == Ok(Join(e.cpu.memory[value], e.cpu.memory[value as int + 1]))
  {
  }

  /** Carries out a call the debugger shell makes. */
  function Apply(e: Emulator, call: SetterCall): Result<Emulator> {
    match call
    case SetRegisterCall(index, value) => SetRegister(e, index, value)
    case SetTimerCall(isDelayTimer, value) => Ok(SetTimer(e, isDelayTimer, value))
  }

  /** The range check of `sv` keeps `SetRegisterCallback` from ever
      indexing past VF, and writes exactly the named register. */
  lemma SetRegisterCommandNeverFaults(e: Emulator, location: Option<bv8>, value: Option<bv8>)
    requires SetRegisterCommand(location, value).Invoke?
    ensures Apply(e, SetRegisterCommand(location, value).call).Ok?
    ensures GetRegisters(Apply(e, SetRegisterCommand(location, value).call).value)[location.value]
         == value.value
  {
  }

  /** `st 0 v` sets the delay timer and `st 1 v` the sound timer. */
  lemma SetTimerCommandSelectsTimer(e: Emulator, location: Option<bv8>, value: Option<bv8>)
    requires SetTimerCommand(location, value).Invoke?
    ensures Apply(e, SetTimerCommand(location, value).call).Ok?
    ensures GetTimers(Apply(e, SetTimerCommand(location, value).call).value)[location.value as int]
         == value.value as int
  {
  }

  /** The loop of `GetMemoryViewCallback`: `for i := low; i <= high && i
      <= 4096; i++ { view = append(view, Memory[i]) }`, where reading
      Memory[4096] panics. */
  method ReadRange(memory: Memory, low: int, high: int) returns (r: Result<seq<bv8>>)
    requires 0 <= low < 65536 && 0 <= high < 65536
    ensures low <= high < MemorySize ==> r == Ok(memory[low .. high + 1])
    ensures low > high || low > MemorySize ==> r == Ok([])
    ensures low <= MemorySize <= high ==> r == Err(IndexOutOfRange(MemorySize))
  {
    var view: seq<bv8> := [];
    var i := low;
    while i <= high && i <= MemorySize
      invariant i == low || (low <= i <= MemorySize && i <= high + 1)
      invariant low <= MemorySize ==> view == memory[low .. i]
      invariant low > MemorySize ==> view == []
      decreases MemorySize + 1 - i
    {
      if i >= MemorySize {
        return Err(IndexOutOfRange(i));
      }
      view := view + [memory[i]];
      i := i + 1;
    }
    return Ok(view);
  }

  /** `GetMemoryViewCallback`: the bytes from pc - 120 to pc + 121, with
      both bounds computed on 16 bits. Near the bottom of memory pc - 120
      wraps around and the view is empty; near the top of memory, and for
      pc up to 4096 + 120, the loop reaches Memory[4096], which panics;
      beyond that the view starts past 4096 and is empty. */
  method MemoryView(c: State) returns (r: Result<seq<bv8>>)
    ensures var pc := c.programCounter as int;
      120 <= pc && pc + 121 < MemorySize ==> r == Ok(c.memory[pc - 120 .. pc + 122])
    ensures c.programCounter as int < 120 ==> r == Ok([])
    ensures var pc := c.programCounter as int;
      pc + 121 >= MemorySize && pc <= MemorySize + 120 ==> r == Err(IndexOutOfRange(MemorySize))
    ensures c.programCounter as int > MemorySize + 120 ==> r == Ok([])
    ensures r.Ok? ==> |r.value| <= 242
  {
    r := ViewAround(c.memory, c.programCounter as int);
  }

  /** The window of `MemoryView` around the program counter `pc`. */
  method ViewAround(memory: Memory, pc: int) returns (r: Result<seq<bv8>>)
    requires 0 <= pc < 65536
    ensures 120 <= pc && pc + 121 < MemorySize ==> r == Ok(memory[pc - 120 .. pc + 122])
    ensures pc < 120 ==> r == Ok([])
    ensures pc + 121 >= MemorySize && pc <= MemorySize + 120 ==> r == Err(IndexOutOfRange(MemorySize))
    ensures pc > MemorySize + 120 ==> r == Ok([])
    ensures r.Ok? ==> |r.value| <= 242
  {
    var low := if pc >= 120 then pc - 120 else pc - 120 + 65536;
    var high := if pc + 121 < 65536 then pc + 121 else pc + 121 - 65536;
    r := ReadRange(memory, low, high);
  }

  /** The `iv` command on the emulator's memory view: when pc has 120
      bytes of memory before it and 121 after, the view has 121 words and
      the one marked current is the word `DoCycle` fetches. */
  method InspectInstructions(e: Emulator) returns (r: Result<seq<ViewCell>>)
    ensures 120 <= e.cpu.programCounter as int && e.cpu.programCounter as int + 121 < MemorySize ==>
      && r.Ok? && |r.value| == 121
      && r.value[CurrentOffset / 2] == Current(Fetch(e.cpu).value)
      && forall j :: 0 <= j < 121 && j != CurrentOffset / 2 ==> r.value[j].Word?
  {
    var view := MemoryView(e.cpu);
    if view.Err? {
      return Err(view.fault);
    }
    var cells := InstructionView(view.value);
    return Ok(cells);
  }
}

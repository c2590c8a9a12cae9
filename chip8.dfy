/**
 * The CHIP-8 interpreter state machine: the machine state built at
 * construction, the ROM loader, and the fetch-decode-execute cycle with its
 * timer update. Of the instruction set only `Annn` (LD I, addr) is
 * implemented; every other instruction is reported as unknown.
 */
module Machine {
  import Opcode
  import Font

  type byte = Opcode.byte

  const NUM_OF_REGISTERS: nat := 16
  const NUM_OF_KEYS: nat := 16
  const LEVEL_OF_STACK: nat := 16
  const MEM_SIZE: nat := 4096

  /** Address at which programs are loaded and execution starts. */
  const PROGRAM_START: nat := 0x200

  /** Largest ROM that fits between PROGRAM_START and the end of memory. */
  const ROM_CAPACITY: nat := MEM_SIZE - PROGRAM_START

  /** The instruction family of `Annn`: IR := nnn. */
  const LD_I: int := 0xA

  /** Exceptions the interpreter raises. */
  datatype Error =
    | RomExceedsMemory          // the ROM would run past the last memory cell
    | IndexError(index: int)    // the cycle read memory at an address that does not exist

  datatype Result<T> = Ok(value: T) | Err(error: Error)

  /** Diagnostics a cycle emits, in the order it emits them. */
  datatype Event =
    | UnknownOpcode(opcode: nat)   // the fetched word is not an implemented instruction
    | Beep                          // the sound timer has just run out

  /** The scalar state that one cycle reads and writes. */
  datatype CpuState = CpuState(opcode: nat, IR: nat, PC: nat, delayTimer: nat, soundTimer: nat)

  /** What one or more cycles leave behind: the new state and the diagnostics emitted. */
  datatype Step = Step(cpu: CpuState, events: seq<Event>)

  /**
   * Executes one instruction word. `Annn` loads IR with its low twelve bits
   * and moves PC on by one word; every other word is reported as unknown and
   * leaves IR and PC as they were. Only the stored opcode changes besides.
   */
  function Execute(s: CpuState, opcode: nat): (r: Step)
    requires opcode < 0x10000
    ensures r.cpu.opcode == opcode
    ensures r.cpu.delayTimer == s.delayTimer && r.cpu.soundTimer == s.soundTimer
    ensures opcode / 0x1000 == LD_I ==>
      r.cpu.IR == opcode % 0x1000 && r.cpu.PC == s.PC + 2 && r.events == []
    ensures opcode / 0x1000 != LD_I ==>
      r.cpu.IR == s.IR && r.cpu.PC == s.PC && r.events == [UnknownOpcode(opcode)]
  {
    var f := Opcode.Decode(opcode);
    match f.operator
    case 0xA => Step(s.(opcode := opcode, IR := f.nnn, PC := s.PC + 2), [])
    case _ => Step(s.(opcode := opcode), [UnknownOpcode(opcode)])
  }

  /**
   * The timer update at the end of a cycle: each timer counts down by one
   * and stays at 0 once there; the sound timer beeps on the update that
   * takes it from 1 to 0, and on no other.
   */
  function TickTimers(s: CpuState): (r: Step)
    ensures r.cpu.opcode == s.opcode && r.cpu.IR == s.IR && r.cpu.PC == s.PC
    ensures r.cpu.delayTimer == (if s.delayTimer == 0 then 0 else s.delayTimer - 1)
    ensures r.cpu.soundTimer == (if s.soundTimer == 0 then 0 else s.soundTimer - 1)
    ensures r.events == (if s.soundTimer == 1 then [Beep] else [])
  {
    var delay := if s.delayTimer > 0 then s.delayTimer - 1 else s.delayTimer;
    var sound := if s.soundTimer > 0 then s.soundTimer - 1 else s.soundTimer;
    Step(s.(delayTimer := delay, soundTimer := sound),
         if s.soundTimer > 0 && sound == 0 then [Beep] else [])
  }

  /**
   * One cycle over memory `mem`: fetch the word at PC, execute it, update
   * the timers. Reading the word fails when it reaches past the end of
   * memory, and then nothing changes. The family of the word is the high
   * nibble of the byte at PC, and the address `Annn` loads is the rest of
   * the word.
   */
  function Cycle(mem: seq<byte>, s: CpuState): (r: Result<Step>)
    requires |mem| == MEM_SIZE
    ensures r.Err? <==> s.PC + 1 >= MEM_SIZE
    ensures r.Err? ==> r.error == IndexError(if s.PC < MEM_SIZE then s.PC + 1 else s.PC)
    ensures r.Ok? ==>
      var t := r.value.cpu;
      var loadsIndex := mem[s.PC] / 0x10 == LD_I;
      && t.opcode == Opcode.Fetch(mem[s.PC], mem[s.PC + 1])
      && (loadsIndex ==> t.IR == mem[s.PC] as int % 0x10 * 0x100 + mem[s.PC + 1] && t.PC == s.PC + 2)
      && (!loadsIndex ==> t.IR == s.IR && t.PC == s.PC)
      && t.delayTimer == (if s.delayTimer == 0 then 0 else s.delayTimer - 1)
      && t.soundTimer == (if s.soundTimer == 0 then 0 else s.soundTimer - 1)
      && (loadsIndex ==> r.value.events == (if s.soundTimer == 1 then [Beep] else []))
      && (!loadsIndex ==> r.value.events == [UnknownOpcode(t.opcode)] + (if s.soundTimer == 1 then [Beep] else []))
  {
    if s.PC + 1 >= MEM_SIZE then
      Err(IndexError(if s.PC >= MEM_SIZE then s.PC else s.PC + 1))
    else
      var opcode := Opcode.Fetch(mem[s.PC], mem[s.PC + 1]);
      Opcode.DecodeFetched(mem[s.PC], mem[s.PC + 1]);
      var executed := Execute(s, opcode);
      var ticked := TickTimers(executed.cpu);
      Ok(Step(ticked.cpu, executed.events + ticked.events))
  }

  /**
   * `k` consecutive cycles with nothing else touching the machine in
   * between: the state after the last one and every diagnostic emitted, or
   * the first exception.
   */
  function Run(mem: seq<byte>, s: CpuState, k: nat): Result<Step>
    requires |mem| == MEM_SIZE
    decreases k
  {
    if k == 0 then Ok(Step(s, []))
    else
      match Cycle(mem, s)
      case Err(e) => Err(e)
      case Ok(first) =>
        match Run(mem, first.cpu, k - 1)
        case Err(e) => Err(e)
        case Ok(rest) => Ok(Step(rest.cpu, first.events + rest.events))
  }

  /**
   * A run of `k` > 0 cycles completes exactly when its first cycle does and
   * the run of the other `k` - 1 from there does; its diagnostics are those
   * of the first cycle followed by those of the rest.
   */
  lemma RunUnfold(mem: seq<byte>, s: CpuState, k: nat)
    requires |mem| == MEM_SIZE
    requires k > 0
    ensures Run(mem, s, k).Ok? <==> Cycle(mem, s).Ok? && Run(mem, Cycle(mem, s).value.cpu, k - 1).Ok?
    ensures Run(mem, s, k).Ok? ==>
      var first := Cycle(mem, s).value;
      var rest := Run(mem, first.cpu, k - 1).value;
      Run(mem, s, k).value == Step(rest.cpu, first.events + rest.events)
  {
  }

  /** How often `e` occurs in `events`. */
  function Count(events: seq<Event>, e: Event): (c: nat)
    ensures c <= |events|
  {
    if events == [] then 0 else (if events[0] == e then 1 else 0) + Count(events[1..], e)
  }

  /** How often `e` occurs in two event lists put one after the other. */
  lemma {:induction false} CountAppend(a: seq<Event>, b: seq<Event>, e: Event)
    ensures Count(a + b, e) == Count(a, e) + Count(b, e)
  {
    if a != [] {
      assert (a + b)[0] == a[0];
      assert (a + b)[1..] == a[1..] + b;
      CountAppend(a[1..], b, e);
    } else {
      assert a + b == b;
    }
  }

  /** The timer update of one cycle, in the form RunTimers adds up. */
  lemma CycleTimers(mem: seq<byte>, s: CpuState)
    requires |mem| == MEM_SIZE
    requires Cycle(mem, s).Ok?
    ensures var first := Cycle(mem, s).value;
      && first.cpu.delayTimer == (if s.delayTimer >= 1 then s.delayTimer - 1 else 0)
      && first.cpu.soundTimer == (if s.soundTimer >= 1 then s.soundTimer - 1 else 0)
      && Count(first.events, Beep) == (if s.soundTimer == 1 then 1 else 0)
  {
    var t := Cycle(mem, s).value;
    var beeps := if s.soundTimer == 1 then [Beep] else [];
    assert Count(beeps, Beep) == (if s.soundTimer == 1 then 1 else 0) by {
      if s.soundTimer == 1 {
        assert beeps[1..] == [];
      }
    }
    if mem[s.PC] / 0x10 == LD_I {
      assert t.events == beeps;
    } else {
      assert t.events == [UnknownOpcode(t.cpu.opcode)] + beeps;
    }
  }

  /**
   * Over any run of `k` cycles that completes, each timer counts down by `k`
   * and then stays at 0.
   */
  lemma {:induction false} RunTimers(mem: seq<byte>, s: CpuState, k: nat)
    requires |mem| == MEM_SIZE
    requires Run(mem, s, k).Ok?
    ensures var t := Run(mem, s, k).value;
      && t.cpu.delayTimer == (if s.delayTimer >= k then s.delayTimer - k else 0)
      && t.cpu.soundTimer == (if s.soundTimer >= k then s.soundTimer - k else 0)
    decreases k
  {
    if k > 0 {
      RunUnfold(mem, s, k);
      CycleTimers(mem, s);
      RunTimers(mem, Cycle(mem, s).value.cpu, k - 1);
    }
  }

  /** The beep count of a run splits into its first cycle and the rest. */
  lemma BeepCountStep(sound: nat, k: nat)
    requires k > 0
    ensures (if 1 <= sound <= k then 1 else 0)
      == (if sound == 1 then 1 else 0) + (if 1 <= (if sound >= 1 then sound - 1 else 0) <= k - 1 then 1 else 0)
  {
  }

  /**
   * Over any run of `k` cycles that completes, the sound timer beeps exactly
   * once if it runs out during the run, and never otherwise.
   */
  lemma {:induction false} RunBeepsOnce(mem: seq<byte>, s: CpuState, k: nat)
    requires |mem| == MEM_SIZE
    requires Run(mem, s, k).Ok?
    ensures Count(Run(mem, s, k).value.events, Beep) == (if 1 <= s.soundTimer <= k then 1 else 0)
    decreases k
  {
    if k > 0 {
      RunUnfold(mem, s, k);
      CycleTimers(mem, s);
      var first := Cycle(mem, s).value;
      RunBeepsOnce(mem, first.cpu, k - 1);
      var rest := Run(mem, first.cpu, k - 1).value;
      CountAppend(first.events, rest.events, Beep);
      BeepCountStep(s.soundTimer, k);
    }
  }

  /** What one completed cycle does to PC and IR, in the form RunProgress adds up. */
  lemma CycleProgress(mem: seq<byte>, s: CpuState)
    requires |mem| == MEM_SIZE
    requires Cycle(mem, s).Ok?
    ensures var t := Cycle(mem, s).value.cpu;
      && (t.PC == s.PC || t.PC == s.PC + 2)
      && (s.IR < 0x1000 ==> t.IR < 0x1000)
  {
  }

  /** A step of zero or one word followed by a whole number of words. */
  lemma WordsCompose(pc0: nat, pc1: nat, pc2: nat, k: nat)
    requires k > 0
    requires pc1 == pc0 || pc1 == pc0 + 2
    requires pc1 <= pc2 <= pc1 + 2 * (k - 1) && (pc2 - pc1) % 2 == 0
    ensures pc0 <= pc2 <= pc0 + 2 * k && (pc2 - pc0) % 2 == 0
  {
  }

  /**
   * Over any run that completes, PC only moves forward, a whole number of
   * two-byte words and at most one word per cycle.
   */
  lemma {:induction false} RunProgress(mem: seq<byte>, s: CpuState, k: nat)
    requires |mem| == MEM_SIZE
    requires Run(mem, s, k).Ok?
    ensures var t := Run(mem, s, k).value;
      s.PC <= t.cpu.PC <= s.PC + 2 * k && (t.cpu.PC - s.PC) % 2 == 0
    decreases k
  {
    if k > 0 {
      RunUnfold(mem, s, k);
      CycleProgress(mem, s);
      var first := Cycle(mem, s).value;
      RunProgress(mem, first.cpu, k - 1);
      var rest := Run(mem, first.cpu, k - 1).value;
      WordsCompose(s.PC, first.cpu.PC, rest.cpu.PC, k);
    }
  }

  /** Over any run that completes, an IR holding a 12-bit address keeps holding one. */
  lemma {:induction false} RunKeepsAddress(mem: seq<byte>, s: CpuState, k: nat)
    requires |mem| == MEM_SIZE
    requires Run(mem, s, k).Ok?
    requires s.IR < 0x1000
    ensures Run(mem, s, k).value.cpu.IR < 0x1000
    decreases k
  {
    if k > 0 {
      RunUnfold(mem, s, k);
      CycleProgress(mem, s);
      RunKeepsAddress(mem, Cycle(mem, s).value.cpu, k - 1);
    }
  }

  /** One cycle on a word that is not `Annn`: the step RunStalls repeats. */
  lemma CycleStalls(mem: seq<byte>, s: CpuState)
    requires |mem| == MEM_SIZE
    requires s.PC + 1 < MEM_SIZE
    requires mem[s.PC] / 0x10 != LD_I
    ensures Cycle(mem, s).Ok?
    ensures var first := Cycle(mem, s).value;
      var word := Opcode.Fetch(mem[s.PC], mem[s.PC + 1]);
      && first.cpu.PC == s.PC
      && first.cpu.IR == s.IR
      && first.cpu.opcode == word
      && Count(first.events, UnknownOpcode(word)) == 1
      && |first.events| == 1 + Count(first.events, Beep)
  {
    var word := Opcode.Fetch(mem[s.PC], mem[s.PC + 1]);
    var first := Cycle(mem, s).value;
    assert first.events == [UnknownOpcode(word)] + (if s.soundTimer == 1 then [Beep] else []);
  }

  /**
   * A word that is not `Annn` stalls the machine: since PC does not advance,
   * every further cycle fetches and reports the same word again, and IR is
   * never touched.
   */
  lemma {:induction false} RunStalls(mem: seq<byte>, s: CpuState, k: nat)
    requires |mem| == MEM_SIZE
    requires s.PC + 1 < MEM_SIZE
    requires mem[s.PC] / 0x10 != LD_I
    ensures Run(mem, s, k).Ok?
    ensures var t := Run(mem, s, k).value;
      var word := Opcode.Fetch(mem[s.PC], mem[s.PC + 1]);
      && t.cpu.PC == s.PC
      && t.cpu.IR == s.IR
      && (k > 0 ==> t.cpu.opcode == word)
      && Count(t.events, UnknownOpcode(word)) == k
      && |t.events| == k + Count(t.events, Beep)
    decreases k
  {
    if k > 0 {
      RunUnfold(mem, s, k);
      CycleStalls(mem, s);
      var first := Cycle(mem, s).value;
      RunStalls(mem, first.cpu, k - 1);
      var rest := Run(mem, first.cpu, k - 1).value;
      var word := Opcode.Fetch(mem[s.PC], mem[s.PC + 1]);
      CountAppend(first.events, rest.events, UnknownOpcode(word));
      CountAppend(first.events, rest.events, Beep);
    }
  }

  /** One cycle on an `Annn` word: the step RunLoadIndexBlock repeats. */
  lemma CycleLoadsIndex(mem: seq<byte>, s: CpuState)
    requires |mem| == MEM_SIZE
    requires s.PC + 1 < MEM_SIZE
    requires mem[s.PC] / 0x10 == LD_I
    ensures Cycle(mem, s).Ok?
    ensures var first := Cycle(mem, s).value;
      && first.cpu.PC == s.PC + 2
      && first.cpu.IR == mem[s.PC] as int % 0x10 * 0x100 + mem[s.PC + 1]
      && Count(first.events, Beep) == |first.events|
  {
  }

  /** The `k` consecutive words from address `pc` on are all `Annn`. */
  predicate LoadIndexBlock(mem: seq<byte>, pc: nat, k: nat)
    requires |mem| == MEM_SIZE
    ensures LoadIndexBlock(mem, pc, k) && k > 0 ==> pc + 2 * k <= MEM_SIZE
    decreases k
  {
    k == 0 || (pc + 1 < MEM_SIZE && mem[pc] / 0x10 == LD_I && LoadIndexBlock(mem, pc + 2, k - 1))
  }

  /**
   * A straight run of `k` `Annn` words starting at PC executes in `k` cycles:
   * PC ends one word past them and the only diagnostics are beeps.
   */
  lemma {:induction false} RunLoadIndexBlock(mem: seq<byte>, s: CpuState, k: nat)
    requires |mem| == MEM_SIZE
    requires LoadIndexBlock(mem, s.PC, k)
    ensures Run(mem, s, k).Ok?
    ensures Run(mem, s, k).value.cpu.PC == s.PC + 2 * k
    ensures Count(Run(mem, s, k).value.events, Beep) == |Run(mem, s, k).value.events|
    decreases k
  {
    if k > 0 {
      CycleLoadsIndex(mem, s);
      var first := Cycle(mem, s).value;
      RunLoadIndexBlock(mem, first.cpu, k - 1);
      RunUnfold(mem, s, k);
      var rest := Run(mem, first.cpu, k - 1).value;
      var t := Run(mem, s, k).value;
      assert t == Step(rest.cpu, first.events + rest.events);
      CountAppend(first.events, rest.events, Beep);
    }
  }

  /**
   * After a straight run of `k > 0` `Annn` words, IR holds the address
   * carried by the last of them; with `k == 0` it is untouched.
   */
  lemma {:induction false} RunLoadIndexBlockIR(mem: seq<byte>, s: CpuState, k: nat)
    requires |mem| == MEM_SIZE
    requires LoadIndexBlock(mem, s.PC, k)
    ensures Run(mem, s, k).Ok?
    ensures k == 0 ==> Run(mem, s, k).value.cpu.IR == s.IR
    ensures k > 0 ==> Run(mem, s, k).value.cpu.IR == mem[s.PC + 2 * k - 2] as int % 0x10 * 0x100 + mem[s.PC + 2 * k - 1]
    decreases k
  {
    if k > 0 {
      CycleLoadsIndex(mem, s);
      var first := Cycle(mem, s).value;
      RunLoadIndexBlockIR(mem, first.cpu, k - 1);
      RunUnfold(mem, s, k);
      var rest := Run(mem, first.cpu, k - 1).value;
      assert Run(mem, s, k).value.cpu == rest.cpu;
      if k == 1 {
        assert rest.cpu == first.cpu;
      } else {
        assert first.cpu.PC + 2 * (k - 1) - 2 == s.PC + 2 * k - 2;
      }
    }
  }

  /**
   * The interpreter. Memory, registers, stack, keypad and framebuffer are
   * fixed-size buffers allocated once; the cycle changes only the scalar
   * fields.
   */
  class Chip8 {
    var opcode: nat
    const memory: array<byte>
    const V: array<byte>
    var IR: nat
    var PC: nat
    const gfx: array<int>
    var delayTimer: nat
    var soundTimer: nat
    const stack: array<int>
    var sp: nat
    const key: array<int>

    ghost predicate Valid()
      reads this
    {
      && memory.Length == MEM_SIZE
      && V.Length == NUM_OF_REGISTERS
      && stack.Length == LEVEL_OF_STACK
      && key.Length == NUM_OF_KEYS
    }

    /** The scalar fields a cycle works on. */
    function State(): CpuState
      reads this
    {
      CpuState(opcode, IR, PC, delayTimer, soundTimer)
    }

    /**
     * A machine with zeroed memory and registers, PC at the program start,
     * the font at the bottom of memory and a `winH` by `winW` framebuffer.
     */
    constructor(winH: int, winW: int)
      ensures Valid()
      ensures fresh(memory) && fresh(V) && fresh(gfx) && fresh(stack) && fresh(key)
      ensures State() == CpuState(0, 0, PROGRAM_START, 0, 0) && sp == 0
      ensures memory[..Font.FONT_SIZE] == Font.FONTSET
      ensures forall d :: 0 <= d < Font.GLYPH_COUNT ==>
        memory[Font.GLYPH_ROWS * d .. Font.GLYPH_ROWS * d + Font.GLYPH_ROWS] == Font.Glyph(d)
      ensures forall a :: Font.FONT_SIZE <= a < MEM_SIZE ==> memory[a] == 0
      ensures forall j :: 0 <= j < NUM_OF_REGISTERS ==> V[j] == 0
      ensures forall j :: 0 <= j < LEVEL_OF_STACK ==> stack[j] == 0
      ensures forall j :: 0 <= j < NUM_OF_KEYS ==> key[j] == 0
      ensures gfx.Length == (if winH * winW > 0 then winH * winW else 0)
      ensures forall j :: 0 <= j < gfx.Length ==> gfx[j] == 0
    {
      opcode := 0;
      memory := new byte[MEM_SIZE](_ => 0);
      V := new byte[NUM_OF_REGISTERS](_ => 0);
      IR := 0;
      PC := PROGRAM_START;
      gfx := new int[if winH * winW > 0 then winH * winW else 0](_ => 0);
      delayTimer := 0;
      soundTimer := 0;
      stack := new int[LEVEL_OF_STACK](_ => 0);
      sp := 0;
      key := new int[NUM_OF_KEYS](_ => 0);
      new;
      LoadChip8Font();
      Font.GlyphsInPlace(memory[..]);
    }

    /** Copies the font into memory from address 0, leaving the rest alone. */
    method LoadChip8Font()
      requires Valid()
      modifies memory
      ensures Valid()
      ensures memory[..Font.FONT_SIZE] == Font.FONTSET
      ensures memory[Font.FONT_SIZE..] == old(memory[Font.FONT_SIZE..])
    {
      for i := 0 to Font.FONT_SIZE
        invariant memory[..i] == Font.FONTSET[..i]
        invariant memory[Font.FONT_SIZE..] == old(memory[Font.FONT_SIZE..])
      {
        memory[i] := Font.FONTSET[i];
      }
    }

    /**
     * Copies `rom` into memory byte by byte from PROGRAM_START. A ROM longer
     * than ROM_CAPACITY raises RomExceedsMemory when the copy reaches the end
     * of memory, after every byte that fits has already been written.
     */
    method LoadRom(rom: seq<byte>) returns (r: Result<()>)
      requires Valid()
      modifies memory
      ensures Valid()
      ensures r.Ok? <==> |rom| <= ROM_CAPACITY
      ensures r.Err? ==> r.error == RomExceedsMemory
      ensures forall k :: 0 <= k < |rom| && k < ROM_CAPACITY ==> memory[PROGRAM_START + k] == rom[k]
      ensures forall a :: 0 <= a < PROGRAM_START ==> memory[a] == old(memory[a])
      ensures forall a :: PROGRAM_START + |rom| <= a < MEM_SIZE ==> memory[a] == old(memory[a])
    {
      var i := PROGRAM_START;
      while i - PROGRAM_START < |rom|
        invariant PROGRAM_START <= i <= MEM_SIZE
        invariant i - PROGRAM_START <= |rom|
        invariant forall k :: 0 <= k < i - PROGRAM_START ==> memory[PROGRAM_START + k] == rom[k]
        invariant forall a :: 0 <= a < PROGRAM_START ==> memory[a] == old(memory[a])
        invariant forall a :: i <= a < MEM_SIZE ==> memory[a] == old(memory[a])
      {
        if i >= MEM_SIZE {
          return Err(RomExceedsMemory);
        }
        memory[i] := rom[i - PROGRAM_START];
        i := i + 1;
      }
      return Ok(());
    }

    /**
     * One cycle: fetch the word at PC, decode it, execute it, update the
     * timers. Returns the diagnostics in the order they are emitted, or the
     * exception when PC is too close to the end of memory, in which case
     * nothing changes. Memory, registers, stack, keypad and framebuffer are
     * outside the frame, so they are unchanged.
     */
    method EmulateCycle() returns (r: Result<seq<Event>>)
      requires Valid()
      modifies this`opcode, this`IR, this`PC, this`delayTimer, this`soundTimer
      ensures Valid()
      ensures match Cycle(memory[..], old(State()))
        case Ok(step) => r == Ok(step.events) && State() == step.cpu
        case Err(e) => r == Err(e) && State() == old(State())
    {
      if PC + 1 >= MEM_SIZE {
        return Err(IndexError(if PC >= MEM_SIZE then PC else PC + 1));
      }
      ghost var expected := Cycle(memory[..], State()).value;
      // Fetch
      opcode := Opcode.Fetch(memory[PC], memory[PC + 1]);
      // Decode
      var f := Opcode.Decode(opcode);
      // Execute
      var events := [];
      if f.operator == LD_I {
        IR := f.nnn;
        PC := PC + 2;
      } else {
        events := events + [UnknownOpcode(opcode)];
      }
      // Timers
      if delayTimer > 0 {
        delayTimer := delayTimer - 1;
      }
      if soundTimer > 0 {
        soundTimer := soundTimer - 1;
        if soundTimer == 0 {
          events := events + [Beep];
        }
      }
      assert State() == expected.cpu;
      assert events == expected.events;
      return Ok(events);
    }
  }
}

# CHIP-8 interpreter core in Dafny

A model of the `Chip8` class of a small CHIP-8 emulator written in Python,
with proofs about it. The class keeps the whole machine: 4 KB of memory with
the hexadecimal font at the bottom, sixteen 8-bit registers `V`, the index
register `IR`, the program counter `PC` (starting at `0x200`), the delay and
sound timers, a 16-level stack with its pointer, a 16-key keypad and a
framebuffer of `win_h * win_w` cells. It loads a ROM into memory from
`0x200` on and runs the fetch-decode-execute cycle. Of the instruction set,
only `Annn` (load `IR` with `nnn`) is implemented; every other word is
reported as unknown. After each instruction the timers count down, and the
sound timer beeps when it reaches zero.

The project has three modules:

- `Opcode` (`opcode.dfy`) is the pure part of a cycle. It assembles the
  big-endian instruction word from two bytes and splits the word into its
  fields (`operator`, `x`, `y`, `nnn`, `nn`, `n`).
- `Font` (`font.dfy`) holds the 80-byte font and where each glyph sits.
- `Machine` (`chip8.dfy`) holds the rest:
  - the class `Chip8`, with the same fields as the Python object. The
    fixed-size lists are arrays and the scalars are fields that the methods
    update in place.
  - `Cycle`, a function that states what one cycle does to the scalar state.
    `Chip8.EmulateCycle` is proved to follow it.
  - `Run`, which repeats `Cycle`, and the lemmas about runs of many cycles:
    timers, beeps, how PC moves, stalling on an unknown word, and straight
    blocks of `Annn` words.

The interpreter's two `print` calls become a list of `Event`s that a cycle
returns, in the order they are printed: `UnknownOpcode(word)` and `Beep`.
The interpreter raises exceptions in two places, and both are results of
type `Result`:

- A ROM that runs past the last memory cell gives `Err(RomExceedsMemory)`.
- A fetch that reads past the end of memory gives `Err(IndexError(address))`.

In that second case the cycle changes nothing, just as the Python assignment
never takes place when the read raises.

Two behaviours of the code deserve a note:

- An unknown instruction does not advance PC. `RunStalls` proves that the
  machine then fetches and reports the same word on every cycle.
- A ROM that is too large is partly loaded: every byte up to address 4095 is
  written before `RomExceedsMemory` is raised (`Chip8.LoadRom`).

## Model

| member | source | states |
|---|---|---|
| Opcode.Fetch | src/chip8.py:56 | The word is below 0x10000. The byte at PC is its high byte and the byte at PC + 1 its low byte, and both can be read back from it. |
| Opcode.Decode | src/chip8.py:58-63 | `operator`, `x`, `y` and `n` are nibbles, `nn` is a byte and `nnn` has 12 bits. The fields nest: `operator`·0x1000 + `nnn` is the word, `x`·0x100 + `nn` is `nnn`, and `y`·0x10 + `n` is `nn`. So the fields give back the word. |
| Opcode.DecodeFetched | src/chip8.py:56-63 | For a fetched word: the family and `x` are the high and low nibbles of the byte at PC. `y` and `n` are the nibbles of the next byte, `nn` is that byte, and `nnn` is the low nibble of the first byte followed by the second. |
| Font.GlyphsInPlace | src/chip8.py:6-23 | In any memory whose first 80 bytes are the font, glyph `d` is found at address 5·d, for every digit. |
| Machine.Execute | src/chip8.py:65-70 | A word of family 0xA sets IR to its low 12 bits, moves PC on by 2 and emits nothing. Any other word leaves IR and PC alone and emits exactly one UnknownOpcode carrying the word. The stored opcode becomes the word, and the timers are untouched. |
| Machine.TickTimers | src/chip8.py:71-77 | Each timer drops by one but never below 0. A Beep is emitted exactly when the sound timer goes from 1 to 0. Opcode, IR and PC are untouched. |
| Machine.Cycle | src/chip8.py:54-77 | A cycle fails exactly when PC + 1 is past the last cell. The IndexError carries the first address that does not exist. Otherwise the opcode becomes the big-endian word at PC. If the high nibble of the byte at PC is 0xA, IR becomes the word's 12-bit address and PC advances by 2. Otherwise IR and PC stay put and UnknownOpcode(word) is emitted first. The timers count down, and a Beep follows exactly when the sound timer reaches 0. |
| Machine.CycleTimers | src/chip8.py:71-77 | After one completed cycle, both timers are one lower (floored at 0), and the cycle's events hold one Beep exactly when the sound timer was 1. |
| Machine.RunTimers | src/chip8.py:71-75 | After any `k` completed cycles, each timer has dropped by `k` and then stays at 0. |
| Machine.RunBeepsOnce | src/chip8.py:74-77 | Over any `k` completed cycles there is exactly one Beep if the sound timer started between 1 and `k`, and none otherwise. |
| Machine.CycleProgress | src/chip8.py:65-70 | One completed cycle moves PC by 0 or 2. An IR below 0x1000 stays below 0x1000. |
| Machine.RunProgress | src/chip8.py:65-70 | Over `k` completed cycles PC never moves back. It moves by a whole number of 2-byte words, and by at most 2·k. |
| Machine.RunKeepsAddress | src/chip8.py:61-67 | Over any completed run, an IR holding a 12-bit address keeps holding one. |
| Machine.CycleStalls | src/chip8.py:54-70 | On a word whose family is not 0xA, the cycle completes with PC and IR unchanged and the opcode set to that word. Its events are one UnknownOpcode(word), plus Beeps only. |
| Machine.RunStalls | src/chip8.py:54-70 | At a word whose family is not 0xA, any number `k` of cycles completes without an exception. PC and IR stay put, and the opcode is that word again. The word is reported exactly `k` times, and every other event is a Beep. |
| Machine.CycleLoadsIndex | src/chip8.py:66-68 | On a word of family 0xA, the cycle completes. PC advances by 2, IR gets the word's 12-bit address, and every event is a Beep. |
| Machine.RunLoadIndexBlock | src/chip8.py:66-68 | `k` consecutive `Annn` words starting at PC run in `k` cycles with no exception. PC ends 2·k further on, and every event is a Beep. |
| Machine.RunLoadIndexBlockIR | src/chip8.py:61-68 | After such a block, IR holds the address of its last word. After an empty block IR is untouched. |
| Machine.Chip8.constructor | src/chip8.py:25-37 | The arrays are fresh, with the sizes the class constants give. Opcode, IR, timers and `sp` are 0, and PC is 0x200. Memory holds the font in its first 80 bytes, with glyph `d` at 5·d, and zeros above. `V`, the stack and the keys are zero. The framebuffer has `win_h·win_w` zero cells, or none when that product is not positive. |
| Machine.Chip8.LoadChip8Font | src/chip8.py:39-41 | Memory 0..79 becomes the font, and every cell from 80 up is unchanged. |
| Machine.Chip8.LoadRom | src/chip8.py:43-52 | Loading succeeds exactly when the ROM fits in the 3584 bytes from 0x200. In every case, each ROM byte that fits is written at 0x200 plus its offset. A ROM that does not fit raises RomExceedsMemory after that write. Memory below 0x200 and past the ROM's end is unchanged. |
| Machine.Chip8.EmulateCycle | src/chip8.py:54-77 | The method returns the events of `Cycle` on the current memory and state, and leaves the state `Cycle` computes. On an exception it returns the error and changes nothing. Memory, registers, stack, keys and framebuffer are outside its frame. |

## Left out

- The front end, which sets up the window, reads key events, paces the loop and draws, is not part of this model. It builds the class without arguments and reads a `draw_flag` the class never defines.
- Reading the ROM file: `Chip8.LoadRom` takes the file's bytes as a sequence, and failing to open the file is not modelled.
- The text of the two printed messages: each becomes an `Event` value.
- Instructions other than `Annn`: the class implements none of them, and the model reports them as unknown just as the class does.
- The stack, `sp`, the keypad, `V` and the framebuffer: the class only creates them, so the model states their initial contents and that a cycle leaves them alone.
- Machine.Cycle: PC, IR and the timers are natural numbers. A caller of the Python class could set them to negative values, and negative list indices would then wrap around to the end of memory. The model does not cover that.
- Machine.Chip8.LoadRom: the ROM's bytes are values 0..255 (`byte`), as reading a file yields. The Python list would accept any value written into it.
- Repeated cycles: `Run` is a specification device. The class has no such loop; the front end calls the cycle repeatedly.

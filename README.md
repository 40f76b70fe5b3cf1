# Random instruction-stream generator for the V2 core (Dafny model)

This project models `tests/cosimulation/generate_random_v2.py` of the Nyuzi
processor: the script that writes a random but legal assembly program for
co-simulation. The program has a bootstrap, then four strands (hardware
threads), then a data segment. Each strand is an entry label, `0x8000`
body instructions, a landing block, a done signal, padding and a self-loop.

The model follows the script's structure:

- `Catalog` (`catalog.dfy`): the operand-form table `FORMS` (14 forms) and
  the opcode list `BINOPS` (8 opcodes).
- `Isa` (`isa.dfy`): one `Instr` record per emitted instruction, one `Line`
  per output line, and `BodyWellFormed`, the rules every synthesized body
  instruction obeys.
- `Random` (`random.dfy`): the random source. It is a class with an abstract
  seeded stream `raw` and a ghost log of draws; `randint(lo, hi)` and
  `random.choice(seq)` each consume one draw.
- `Synth` (`synth.dfy`): the per-slot synthesizer, as methods that draw in
  the script's order. Predicates state exactly which draws each kind of slot
  consumes and how their values become the instruction.
- `Strand` (`strand.dfy`): the strand loop with its `labelIdx` counter and
  closing blocks, plus lemmas on label cycling and branch-target resolution.
- `DataSegment` (`data.dfy`): the data-word loop. Words are grouped 8 per
  `.long` line.
- `Generator` (`generator.dfy`): the whole program, with one random stream
  threaded through all four strands and then the data segment.
- `Pointers` (`pointers.dfy`): bounded drift of the computed address
  registers `s1`/`v1` relative to `s0`/`v0`.
- `Text` (`text.dfy`): rendering of lines to text, with decimal (`str`) and
  hexadecimal (`hex`) numbers that parse back to the value.
- `Seqs` (`seqs.dfy`): concatenation of segments.

Details of the script the model follows:

- An arithmetic slot always draws four registers (dest, srcA, srcB, mask),
  even when the form has no mask or has an immediate. It does not draw three
  or four depending on the form.
- The landing block is six labelled nops followed by two unlabelled nops.
  Then comes a single `setcr s0, 29`, 8 nops of padding, and `1: goto 1b`.
- The script never checks that the instruction count is positive. The count
  is the constant `0x8000`.

## Model

| member | source | states |
|---|---|---|
| `Catalog.FormsHaveRegisterDestinations` | tests/cosimulation/generate_random_v2.py:35-50 | the table has 14 forms; none has an immediate destination or an immediate first source |
| `Catalog.BinOpsAreDistinct` | tests/cosimulation/generate_random_v2.py:52-61 | the opcode list has 8 entries; every opcode is in it, and no opcode appears twice |
| `Catalog.OpNameInjective` | tests/cosimulation/generate_random_v2.py:52-61 | distinct opcodes have distinct mnemonics |
| `Catalog.SuffixText` | tests/cosimulation/generate_random_v2.py:35-50 | the mnemonic suffix is empty exactly for the unmasked variant |
| `Catalog.OpName` | tests/cosimulation/generate_random_v2.py:52-61 | every mnemonic has at least two characters, all lower-case letters or `_` |
| `Isa.BodyWrites` | tests/cosimulation/generate_random_v2.py:133-187 | no body instruction writes register 0 of either class; every arithmetic instruction writes a register; register 1 is written exactly by the computed-pointer update |
| `Pointers.DriftBounded` | tests/cosimulation/generate_random_v2.py:130-137 | along any sequence of body instructions, `s1`/`v1` stay a multiple of 64 in [0, 1024] past `s0`/`v0`; updates never accumulate |
| `Random.Rng.RandInt` | tests/cosimulation/generate_random_v2.py:130 | returns a value in [lo, hi] and appends exactly that draw to the log |
| `Random.Rng.Choice` | tests/cosimulation/generate_random_v2.py:142-143 | returns the element at the drawn index in [0, \|s\|-1] and logs that one draw |
| `Synth.SynthesizeSlot` | tests/cosimulation/generate_random_v2.py:130-189 | one slot consumes exactly the draws `SlotDraws` describes, in order, and yields a well-formed body instruction |
| `Synth.SynthesizeArith` | tests/cosimulation/generate_random_v2.py:142-158 | draws form, opcode, dest, srcA, srcB and mask registers, plus an immediate only for an `i` third operand; the mask register appears exactly for `_mask`/`_invmask`; registers are in [2,8] and the immediate in [0,0x1FF] |
| `Synth.DrawRegisters` | tests/cosimulation/generate_random_v2.py:144-147 | four draws over [2,8], dest, srcA, srcB and mask in that order, each logged |
| `Synth.ArithAssembled` | tests/cosimulation/generate_random_v2.py:142-158 | any in-range form index, opcode index, registers and immediate, assembled as the source does, satisfy `ArithDraws` and give a well-formed instruction |
| `Synth.SynthesizeBranch` | tests/cosimulation/generate_random_v2.py:161-167 | `goto`, `btrue` or `bfalse` by the kind draw; a condition register `s2`-`s8` exactly for the conditional forms; target in [1,6], always forward |
| `Synth.SynthesizeMemory` | tests/cosimulation/generate_random_v2.py:170-189 | draws mode, pointer, load/store and data register in that order; the pointer is 0 or 1 and the data register in [2,8]; a nonzero load/store draw means load |
| `Synth.SlotDrawsWellFormed` | tests/cosimulation/generate_random_v2.py:130-189 | any in-bounds draw sequence of a slot yields a well-formed body instruction |
| `Synth.SlotDrawLength` | tests/cosimulation/generate_random_v2.py:130-189 | a slot consumes 3 draws for a pointer update, 8 for arithmetic (9 with an immediate), 4 for `goto`, 5 for a conditional branch and 6 for memory |
| `Synth.PointerUpdateExactlyOnZero` | tests/cosimulation/generate_random_v2.py:130-137 | a pointer update happens exactly when the first draw is 0; its delta is a multiple of 64 and at most 1024 |
| `Synth.LoadExactlyOnOne` | tests/cosimulation/generate_random_v2.py:172 | a memory slot loads exactly when its load/store draw is 1 and stores exactly when it is 0 |
| `Synth.SlotDrawsDeterministic` | tests/cosimulation/generate_random_v2.py:130-189 | the draws of a slot determine its instruction |
| `Strand.Label` | tests/cosimulation/generate_random_v2.py:125-128 | the label of body instruction i is in [1,6] |
| `Strand.LabelCycle` | tests/cosimulation/generate_random_v2.py:125-128 | labels start at 2, advance through 2,3,4,5,6,1, and repeat with period 6 |
| `Strand.LabelStep` | tests/cosimulation/generate_random_v2.py:125-128 | with the counter at (x + 1) mod 6 before slot x, the printed prefix is `Label(x)` and the advanced counter is (x + 2) mod 6 |
| `Strand.Landing` | tests/cosimulation/generate_random_v2.py:191-201 | the landing block has 8 lines; its line t-1 is a nop labelled t, for t in [1,6] |
| `Strand.EmitTrailer` | tests/cosimulation/generate_random_v2.py:191-207 | appends exactly the landing block, `setcr s0, 29`, 8 nops and `1: goto 1b` |
| `Strand.EmitStrand` | tests/cosimulation/generate_random_v2.py:123-207 | a strand is its entry label, then `TOTAL_INSTRUCTIONS` body lines with label `Label(i)`, one per iteration including the pointer-update path, then the landing block, `setcr s0, 29`, 8 nops and `1: goto 1b`; each body slot's draws are logged in order |
| `Strand.OnlyTheSelfLoopBranchesBack` | tests/cosimulation/generate_random_v2.py:161-207 | the only backward branch of a strand is its last line, which targets its own label |
| `Strand.ForwardTargetResolves` | tests/cosimulation/generate_random_v2.py:191-197 | from every body line, every forward target 1..6 has a matching label later in the strand, at the latest in the landing block |
| `Strand.ForwardTargetWithinSix` | tests/cosimulation/generate_random_v2.py:125-128 | at least six lines before the end of the body, the nearest line with the target label is at most six lines ahead |
| `Strand.ShapedEntries` | tests/cosimulation/generate_random_v2.py:124 | a strand holds exactly one entry label, its own |
| `Strand.EmittedDeterministic` | tests/cosimulation/generate_random_v2.py:123-207 | two emissions of a strand whose slots drew the same values are line-for-line identical |
| `DataSegment.Chunks` | tests/cosimulation/generate_random_v2.py:211-217 | the `.long` lines, concatenated, are exactly the drawn words in order |
| `DataSegment.ChunkSizes` | tests/cosimulation/generate_random_v2.py:211-215 | every `.long` line holds 1 to 8 words, and every line but the last holds 8 |
| `DataSegment.ChunksSnocFull` | tests/cosimulation/generate_random_v2.py:212-213 | when the word count so far is a multiple of 8, the next word opens a new `.long` line |
| `DataSegment.ChunksSnocPartial` | tests/cosimulation/generate_random_v2.py:214-215 | otherwise the next word is appended to the last line |
| `DataSegment.ChunksFull` | tests/cosimulation/generate_random_v2.py:211-215 | a multiple of 8 words gives that many eighths of lines, all full |
| `DataSegment.DataLinesSnocFull` | tests/cosimulation/generate_random_v2.py:212-213 | after a whole number of lines, one more word adds a new `.long` line holding just that word |
| `DataSegment.DataLinesSnocPartial` | tests/cosimulation/generate_random_v2.py:214-217 | otherwise one more word is appended to the last `.long` line, and the other lines are unchanged |
| `DataSegment.EmitData` | tests/cosimulation/generate_random_v2.py:209-217 | `.align 64`, `data:`, then 512 `.long` lines of 8 words; 4096 words each in [0, 0xFFFFFFFF], drawn in order |
| `Generator.ExtendStrands` | tests/cosimulation/generate_random_v2.py:123 | appending an emitted strand leaves every earlier strand in place and adds exactly one entry label, the next strand number |
| `Generator.EmitStrands` | tests/cosimulation/generate_random_v2.py:123-207 | the four strands follow the preamble in order, each emitted as a whole, with their draws logged strand after strand |
| `Generator.PrefixAgrees` | tests/cosimulation/generate_random_v2.py:123-207 | programs with the same preamble whose first n strands drew the same slot values agree on every line up to the end of strand n - 1 |
| `Generator.NextStrandAgrees` | tests/cosimulation/generate_random_v2.py:123-207 | if two programs agree up to the start of strand s and strand s drew the same slot values in both, they agree up to its end |
| `Generator.ProgramDeterministic` | tests/cosimulation/generate_random_v2.py:69-217 | the program name, the slot draws and the data words determine the whole program: two programs that agree on them are identical |
| `Generator.Generate` | tests/cosimulation/generate_random_v2.py:69-217 | the program has 1 + 4 x (0x8000 + 19) + 514 `Line` records (records, not printed text lines); exactly the entry labels 0,1,2,3, in order; the data segment last; all draws in the order strand 0 .. strand 3, then data words |
| `Text.FromBaseToBase` | tests/cosimulation/generate_random_v2.py:127 | the decimal (and hexadecimal) text of a number parses back to that number |
| `Text.MemSuffix` | tests/cosimulation/generate_random_v2.py:172-187 | the suffix is `_gath` exactly for a scatter/gather load, `_scat` exactly for a scatter/gather store, `_v` exactly for block vector and `_32` exactly for scalar word |
| `Text.HexList` | tests/cosimulation/generate_random_v2.py:212-217 | the word list renders empty exactly when there are no words, and otherwise starts with the `0x` of the first word |
| `Text.BranchTargetText` | tests/cosimulation/generate_random_v2.py:163-167 | a forward branch's text ends with its target digit followed by `f` |
| `Text.BackTargetText` | tests/cosimulation/generate_random_v2.py:207 | the self-loop's text ends with its target digit followed by `b` |
| `Text.ArithMaskText` | tests/cosimulation/generate_random_v2.py:148-152 | an arithmetic instruction begins `<op><suffix> <dest>, `, and a masked one continues with `s<mask>, ` before the sources |
| `Text.MemoryPointerText` | tests/cosimulation/generate_random_v2.py:176-187 | a memory access ends with `(<p><ptr>)`, where `p` is `v` exactly for scatter/gather, and the digit is the pointer register |
| `Text.RenderLine` | tests/cosimulation/generate_random_v2.py:127 | a numbered line's text begins with its label's digits and a colon |
| `Text.NumberedLabelText` | tests/cosimulation/generate_random_v2.py:127 | a line labelled 1..6 starts with that one digit followed by `:` |

## Left out

- The bootstrap preamble text (lines 69-121) is not modelled. `Line.Preamble` renders only its header comment, with the program name passed in where `sys.argv[0]` stands. Register initialisation, the mask loop, `setcr`/`getcr` and the jump table are not modelled.
- Python's Mersenne Twister and seeding are not modelled. The random stream is any function `raw` from draw number to value. A draw over [lo, hi] is `lo + raw(k) mod (hi - lo + 1)`, which stands for `randint`. `random.choice` is one draw over the list's indices.
- Printing is modelled as appending `Line` values. Whitespace is normalised, the whitespace-only lines of the landing block are dropped, and the double space after `_gath`/`_scat` is not reproduced. The blank line that `print '\n.long',` (line 213) writes before each `.long` line, including the one between `data:` and the first `.long`, is not modelled. Python 2's softspace rule renders the separators as ` , `; the model renders them as `, `.
- `UNOPS` (lines 63-67) is declared and never used, so it is not modelled.
- The execution semantics of the emitted instructions are not modelled, and neither is the concurrent behaviour of the four strands on the target. `Pointers.DriftBounded` tracks only what body instructions do to registers 0 and 1.
- `x & 7 == 0` (line 212) is written `x % 8 == 0`. The two are equal for the non-negative loop index.
- `Random.Rng.RandInt`: its contract bounds the value and logs the draw, but does not state which raw value the draw came from. The body computes it from the next raw value.
- `Text.RenderInstr`: it has no contract of its own. Its textual promises are stated as the lemmas `Text.BranchTargetText`, `Text.BackTargetText`, `Text.ArithMaskText` and `Text.MemoryPointerText`. The remaining operand text (the sources of an arithmetic instruction and the data register of a memory access) is given by its definition alone.
- `Text.HexList`: its contract does not state where the separators go, or that each word's text parses back.
- `Text.RenderLine`: its contract states only the label prefix of a numbered line. The rest of the text is given by its definition.

# ELVM misty backend, modelled in Dafny

ELVM compiles C to a small intermediate representation (IR) and has one
backend per target language. This project models the backend for the
"misty" target, `target/misty.c`. That backend turns a list of IR
instructions into lines of misty assembly text.

Misty has three special registers: `tv` (the value scratch), `tp` (the
pointer selector) and `pc`. The six IR registers sit after them, in slots
3 to 8. Every register-to-register operation goes through `tp`: the code
writes `set tp R` and then acts on `tp`.

The model has five layers:

- `Ir` (ir.dfy): the IR fields the backend reads, as datatypes. `ir/ir.h`
  is not part of this model.
- `MistyRegs` (misty_regs.dfy): register renaming (`misty_conv`) and
  register names (`misty_name`). It also has `Fault`: one constructor per
  kind of `error()` or `assert` in the backend, plus `OperandMismatch`,
  which only the pure renderer `Render` returns, for a template whose
  operands do not match its placeholders.
- `DecimalText` (decimal.dfy) and `MistyFormat` (misty_format.dfy): the
  formatter `misty_emit`. A template has each `%` replaced by a register
  name and each `&` by the decimal text of an integer. The line is indented
  by the current depth.
- `MistySelect` (misty_select.dfy): plans. A plan is the sequence of
  `misty_emit` calls that a helper or an opcode makes, written as a pure
  function. It also holds the preamble and the instruction-list
  translation.
- `MistyEmitter` (misty_emitter.dfy): the backend as the source runs it.
  - A class `Emitter` holds the indent (`g_indent`), the lines written so
    far (stdout) and the register names.
  - There is one method per C function that writes output: `Emit`,
    `ConvReg`, `RegPtr`, `RrMov`, `ConvTvReg`, `EmitMov` and `EmitInst`.
    The opcode switch of `misty_emit_inst` is split into `EmitOp` and its
    helper methods (`EmitAdd`, `EmitSub`, `EmitWithOperand`, `EmitLone`,
    `EmitNa`), and the declaration loops of `target_misty` into
    `EmitPreamble`. Each method is proved to append exactly the lines of
    its plan. `misty_conv` and `misty_name` write nothing and are the
    functions `Conv` and `Name`.
  - `TargetMisty` is the driver.

`MistyProperties` (misty_props.dfy) states the backend's output as text,
opcode by opcode. `Expected` is a reference written directly in misty
syntax, and it agrees with the plans. It also proves:

- an instruction translates exactly when it is well formed;
- the pointer assertion never fires;
- JMP assigns only `pc` and `tp`.

SUB writes five lines for an immediate operand and six for a register
(target/misty.c:125-129); `SubLineCount` proves those counts.

## Model

| member | source | states |
|---|---|---|
| MistyRegs.Conv | target/misty.c:47-51 | An IR register r lives in slot r + 3, which is never tv, tp or pc |
| MistyRegs.ConvInjective | target/misty.c:47-51 | Distinct IR registers get distinct slots, and equal slots mean equal registers |
| MistyRegs.NameDefined | target/misty.c:17-25 | misty_name succeeds exactly on slots 0..8; its assertion rejects every other slot |
| MistyRegs.NameValues | target/misty.c:8-25 | Slots 0, 1 and 2 print as tv, tp and pc. A converted register 0..5 prints as its IR name, so the assertion holds for it. A converted register of 6 or more fails |
| DecimalText.Digits | target/misty.c:38 | The digits of a number are non-empty decimal digits without a leading zero |
| DecimalText.DecimalRoundTrip | target/misty.c:38 | Reading back the text `%d` prints gives the number printed |
| DecimalText.DecimalInjective | target/misty.c:38 | Distinct numbers print differently |
| DecimalText.DecimalCharacters | target/misty.c:38 | The printed number is digits, with a minus sign only in front of a negative number |
| MistyFormat.Spaces | target/misty.c:29-30 | The indentation is exactly g_indent characters, all spaces |
| MistyFormat.FitsConsumesAll | target/misty.c:32-43 | A template that fits its operands consumes exactly one operand per placeholder |
| MistyFormat.RenderDefined | target/misty.c:34-42 | Rendering succeeds exactly when the operands match the placeholders and every register operand is one of the nine slots |
| MistyFormat.RenderVerbatim | target/misty.c:39-40 | Characters other than `%` and `&` are copied unchanged |
| MistyFormat.RenderRegHole | target/misty.c:35-36 | A `%` is replaced by the name of the next register operand |
| MistyFormat.RenderIntHole | target/misty.c:37-38 | A `&` is replaced by the decimal text of the next integer operand |
| MistyFormat.RenderSingleLine | target/misty.c:34-44 | If neither the template nor any register name holds a newline, the rendered text holds none either, so each call writes exactly one line |
| MistyFormat.LinesConcat | target/misty.c:27-45 | Running two call sequences one after the other writes the first one's lines and then the second one's, and fails if either fails |
| MistyFormat.LinesSingle | target/misty.c:27-45 | One misty_emit call writes one line |
| MistyFormat.LinesOneEach | target/misty.c:27-45 | A call sequence writes one line per call, in order, and succeeds exactly when every call does |
| MistyFormat.LinesFromEach | target/misty.c:27-45 | Calls whose lines are known one by one write exactly those lines |
| MistyFormat.LineRegInt | target/misty.c:27-45 | A template `m % &` writes the indentation, m, the register's name and the number |
| MistyFormat.LineRegReg | target/misty.c:27-45 | A template `m % %` writes the indentation, m and the two register names |
| MistyFormat.LineReg | target/misty.c:27-45 | A template `m %` writes the indentation, m and the register's name |
| MistyFormat.LinePlain | target/misty.c:27-45 | A template without placeholders is written after the indentation, unchanged |
| MistySelect.SubLines | target/misty.c:125-129 | The SUB sequence succeeds exactly when each of its five steps does, and writes their lines in turn |
| MistySelect.PreambleSpecialLine | target/misty.c:187-188 | Line i (i < 3) of the preamble is `#def NAME i` for tv, tp, pc |
| MistySelect.PreambleRegLine | target/misty.c:189-190 | Line 3 + r of the preamble is `#def NAME r+3` with IR register r's name |
| MistySelect.PreambleBlankLine | target/misty.c:191 | The preamble ends with an empty line |
| MistySelect.PreambleLines | target/misty.c:187-191 | The two declaration loops and the blank line write exactly the ten lines of the preamble text and cannot fail |
| MistySelect.InstsLinesConcat | target/misty.c:193-195 | Translating two instruction lists in turn writes the first list's lines and then the second's |
| MistySelect.InstsLinesStep | target/misty.c:193-195 | One more loop iteration appends instruction n's lines. When instruction n fails, the whole program fails |
| MistyEmitter.Emitter.constructor | target/misty.c:6 | Output starts empty at depth 0 |
| MistyEmitter.Emitter.Emit | target/misty.c:27-45 | misty_emit appends exactly the rendered line, and nothing when a register name is undefined |
| MistyEmitter.Emitter.ConvReg | target/misty.c:53-64 | misty_conv_reg appends the lines of its plan and returns the register the operand is read from |
| MistyEmitter.Emitter.RegPtr | target/misty.c:66-72 | misty_reg_ptr appends its one line and returns tp; pointing tp at itself fails |
| MistyEmitter.Emitter.RrMov | target/misty.c:74-79 | misty_rr_mov appends the pointer line and then the load line |
| MistyEmitter.Emitter.ConvTvReg | target/misty.c:81-93 | misty_conv_tv_reg appends the lines of its plan and returns tv |
| MistyEmitter.Emitter.EmitMov | target/misty.c:95-105 | misty_emit_mov appends the lines of its plan |
| MistyEmitter.Emitter.EmitInst | target/misty.c:107-182 | Appends the disassembly comment and then the opcode's lines one level deeper. On success the indent is back where it was; on abort it is one level deeper and the earlier output is untouched |
| MistyEmitter.Emitter.EmitOp | target/misty.c:114-179 | The opcode switch appends exactly the opcode's lines and fails on an unknown opcode |
| MistyEmitter.Emitter.EmitAdd | target/misty.c:119-123 | ADD appends the pointer line, the operand's lines and `add tp X`, in that order |
| MistyEmitter.Emitter.EmitSub | target/misty.c:125-129 | SUB appends the copy into tv, `set tp tv`, `neg tp`, `set tp D`, `add tp tv` |
| MistyEmitter.Emitter.EmitWithOperand | target/misty.c:131-142 | LOAD, STORE and PUTC append the operand's lines and then the line that uses it |
| MistyEmitter.Emitter.EmitLone | target/misty.c:144-150 | GETC and EXIT append exactly their one line |
| MistyEmitter.Emitter.EmitNa | target/misty.c:155-171 | A comparison or conditional jump appends exactly the `; na` marker line |
| MistyEmitter.Emitter.EmitPreamble | target/misty.c:187-191 | The declaration loops append exactly the preamble text |
| MistyEmitter.TargetMisty | target/misty.c:184-196 | The program succeeds exactly when its plan does, and then the text written is the preamble followed by every instruction, in list order |
| MistyProperties.ConvRegText | target/misty.c:53-64 | An immediate k writes exactly `set tv k` and is read from tv. A register writes nothing and is read in place. Any other kind fails |
| MistyProperties.RegPtrText | target/misty.c:66-72 | Writes exactly `set tp R` for any declared slot other than tp. tp itself is the assertion failure, and an undeclared slot fails |
| MistyProperties.RrMovText | target/misty.c:74-79 | Writes exactly `set tp S` and then `load tp D` |
| MistyProperties.ConvTvRegText | target/misty.c:81-93 | Always returns tv. An immediate writes `set tv k`; a register writes `set tp R` and then `load tp tv` |
| MistyProperties.MovText | target/misty.c:95-105 | An immediate writes `set D k`; a register writes `set tp S` and then `load tp D` |
| MistyProperties.MovAssigns | target/misty.c:95-105 | The lines of misty_emit_mov assign only the destination and tp |
| MistyProperties.MoveText | target/misty.c:115-117 | MOV, and likewise JMP with pc as the destination, writes the expected text |
| MistyProperties.JmpAssigns | target/misty.c:173-175 | JMP assigns only pc and tp, never an IR register |
| MistyProperties.AddText | target/misty.c:119-123 | ADD writes `set tp D`, then `set tv k` for an immediate, then `add tp X` |
| MistyProperties.SubText | target/misty.c:125-129 | SUB writes the copy into tv, `set tp tv`, `neg tp`, `set tp D`, `add tp tv` |
| MistyProperties.SubLineCount | target/misty.c:125-129 | SUB writes five lines for an immediate operand and six for a register |
| MistyProperties.OperandText | target/misty.c:131-142 | LOAD writes `load X D`, STORE writes `store X D` (operand order kept) and PUTC writes `#putc X`, each after `set tv k` for an immediate |
| MistyProperties.FixedText | target/misty.c:144-171 | GETC writes `#getc D`, EXIT writes `halt`, DUMP writes nothing, and each comparison and conditional jump writes `; na` |
| MistyProperties.InstText | target/misty.c:114-179 | Every well-formed instruction writes exactly its expected text |
| MistyProperties.OkIsWellFormed | target/misty.c:114-179 | Only well-formed instructions translate. An unknown opcode, an unknown operand kind or a register of 6 or more fails |
| MistyProperties.NeverPointerSelf | target/misty.c:69 | No opcode reaches misty_reg_ptr with tp, so its assertion never fires |
| MistyProperties.InstDefined | target/misty.c:107-182 | An instruction translates exactly when it is well formed, as the comment plus its expected text one level deeper |
| MistyProperties.InstsDefined | target/misty.c:193-195 | The instruction list translates exactly when every instruction is well formed, each once and in list order |
| MistyProperties.ProgramDefined | target/misty.c:184-196 | The program translates exactly when every instruction is well formed. Its text is then the preamble followed by every instruction's comment and text |
| MistyProperties.SubExample | target/misty.c:125-129 | `sub A, 3` writes the comment and then five lines one space deep |
| MistyProperties.MovExample | target/misty.c:115-117 | `mov B, A` writes the comment and then `set tp A`, `load tp B` |
| MistyProperties.SmallProgramExample | target/misty.c:184-196 | After the preamble, `mov A, 10; mov B, 3; add A, B; putc A; exit` writes, per instruction, its comment and then `set A 10`; `set B 3`; `set tp A`, `add tp B`; `#putc A`; `halt` |

## Left out

- Real I/O. stdout is the `out` field, one string per line, without the newline.
- `dump_inst_fp` is an external disassembler that is not part of this model. It is the parameter `dump`. The comment `misty_emit_inst` writes is taken as an empty line and then `; ` plus the text of `dump`, assumed to be one line.
- `ir/ir.h` and `reg_names` are not part of this model. The IR types are datatypes holding the fields the backend reads. `reg_names` is a parameter with at least six entries.
- The linked list `module->text` is a sequence.
- C varargs typing. `Emit` requires that the operands match the placeholders, as C requires of the caller. A missing or mistyped operand, which C leaves undefined, is a failure in the pure renderer.
- MistyFormat.RenderDefined: surplus operands after the last placeholder are a failure (`OperandMismatch`) in the model, while C's `misty_emit` ignores them and succeeds. So the "only if" direction is stricter than C for surplus operands. No call site in target/misty.c passes surplus operands: every call of `Emitter.Emit` is proved to meet `Fits`, so the backend's output is unaffected.
- MistySelect.InstPlan: C does not fix the evaluation order of the two arguments of ADD's `misty_emit`. The model takes them left to right, so `set tp D` comes before the `set tv k` of an immediate.
- The misty machine's own semantics is defined nowhere in the source. No numeric effect, such as SUB computing dst − src, is proved. `MistyProperties.Assigned` reads `set D X` and `load tp D` as assigning D, the way `misty_rr_mov` uses them.
- Process termination. `error()` and a failed `assert` become `ok == false` or an `Err`. After an abort, the model only promises that the earlier output is untouched.
- MistyEmitter.Emitter.Emit: a line in progress when `misty_name`'s assertion fails is not written. C may already have written part of it.
- Integer width. Immediates are unbounded integers; the 32-bit `int` range of `%d` is not enforced.

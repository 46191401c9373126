/**
 * The part of ELVM's intermediate representation that the misty backend
 * reads.  ir/ir.h is not part of this model; these datatypes mirror the
 * fields target/misty.c uses.
 */
module Ir {

  /** Number of general-purpose IR registers (A, B, C, D, BP, SP). */
  const RegCount: nat := 6

  /**
   * An IR operand.  `Reg(r)` names IR register `r`; a register number of
   * 6 or more is malformed.  `OtherKind` stands for a type tag that is
   * neither REG nor IMM, the case the backend rejects with "unknown kind".
   */
  datatype Value = Imm(imm: int) | Reg(reg: nat) | OtherKind(tag: int)

  /** The IR opcodes; `OtherOp` stands for any other opcode number. */
  datatype Op =
    | MOV | ADD | SUB | LOAD | STORE | PUTC | GETC | EXIT
    | JEQ | JNE | JLT | JGT | JLE | JGE | JMP
    | EQ | NE | LT | GT | LE | GE | DUMP
    | OtherOp(code: int)

  /**
   * One IR instruction.  `dst` is the register field of the destination
   * operand (the backend reads `inst->dst.reg` without looking at its tag),
   * `src` the source operand and `jmp` the jump target.
   */
  datatype Inst = Inst(op: Op, dst: nat, src: Value, jmp: Value)

  predicate IsComparison(op: Op) {
    op.EQ? || op.NE? || op.LT? || op.GT? || op.LE? || op.GE?
  }

  predicate IsCondJump(op: Op) {
    op.JEQ? || op.JNE? || op.JLT? || op.JGT? || op.JLE? || op.JGE?
  }
}

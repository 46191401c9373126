/**
 * Register namespace of the misty target (target/misty.c, misty_conv and
 * misty_name): three special registers, then the six IR registers.
 */
module MistyRegs {
  import opened Wrappers
  import Ir

  /**
   * Why a translation aborts: one constructor per kind of error() or assert
   * in the backend, plus OperandMismatch, which only the pure renderer returns.
   */
  datatype Fault =
    | UnknownKind      // error("unknown kind"): an operand that is neither REG nor IMM
    | UnknownOpcode    // error("unknown opcode")
    | PointerSelf      // assert(reg != TP) in misty_reg_ptr
    | SlotOutOfRange   // assert(reg - LAST_MISTY_REG < 6) in misty_name
    | OperandMismatch  // a template whose placeholders do not match its operands

  /** The value-scratch register. */
  const TV: nat := 0
  /** The pointer-selector register. */
  const TP: nat := 1
  /** The program counter. */
  const PC: nat := 2
  /** Number of special registers (LAST_MISTY_REG). */
  const LastMistyReg: nat := 3

  const SpecialNames: seq<string> := ["tv", "tp", "pc"]

  /** Highest slot count misty_name accepts: the special registers and six IR registers. */
  const SlotCount: nat := LastMistyReg + Ir.RegCount

  /** The externally supplied IR register names (reg_names), at least six of them. */
  type NameTable = s: seq<string> | |s| >= Ir.RegCount witness ["a", "b", "c", "d", "bp", "sp"]

  /** misty_conv: IR register `r` lives in slot `r + 3`, past the special registers. */
  function Conv(r: nat): (slot: nat)
    ensures slot != TV && slot != TP && slot != PC
    ensures slot - LastMistyReg == r
  {
    r + LastMistyReg
  }

  /** misty_name: the printable name of a slot; fails for slots past the six IR registers. */
  function Name(names: NameTable, slot: nat): Result<string, Fault> {
    if slot < LastMistyReg then Ok(SpecialNames[slot])
    else if slot - LastMistyReg < 6 then Ok(names[slot - LastMistyReg])
    else Err(SlotOutOfRange)
  }

  /** Distinct IR registers get distinct slots. */
  lemma ConvInjective(a: nat, b: nat)
    ensures Conv(a) == Conv(b) <==> a == b
  {
  }

  /** misty_name succeeds exactly on the nine declared slots. */
  lemma NameDefined(names: NameTable, slot: nat)
    ensures Name(names, slot).Ok? <==> slot < SlotCount
  {
  }

  /** The special slots print as tv, tp, pc; a converted register prints as its IR name. */
  lemma NameValues(names: NameTable, r: nat)
    ensures Name(names, TV) == Ok("tv") && Name(names, TP) == Ok("tp") && Name(names, PC) == Ok("pc")
    ensures r < Ir.RegCount ==> Name(names, Conv(r)) == Ok(names[r])
    ensures r >= Ir.RegCount ==> Name(names, Conv(r)) == Err(SlotOutOfRange)
  {
  }
}

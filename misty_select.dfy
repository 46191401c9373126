/**
 * Instruction selection for the misty target (target/misty.c): the
 * misty_emit calls each helper and each opcode makes, as pure functions.
 * The methods of MistyEmitter are proved to write exactly these lines.
 */
module MistySelect {
  import opened Wrappers
  import opened Ir
  import opened MistyRegs
  import opened MistyFormat

  /** The emissions of a materialization helper and the register it returns. */
  datatype Materialized = Materialized(emits: seq<Emission>, slot: nat)

  /** misty_conv_reg: an immediate goes through tv; a register is used in place. */
  function ConvRegPlan(v: Value): Result<Materialized, Fault> {
    match v
    case Imm(k) => Ok(Materialized([Emission("set % &", [RegOp(TV), IntOp(k)])], TV))
    case Reg(r) => Ok(Materialized([], Conv(r)))
    case OtherKind(_) => Err(UnknownKind)
  }

  /** misty_reg_ptr: point tp at `slot`; tp cannot be pointed at itself. */
  function RegPtrPlan(slot: nat): Result<seq<Emission>, Fault> {
    if slot == TP then Err(PointerSelf)
    else Ok([Emission("set % %", [RegOp(TP), RegOp(slot)])])
  }

  /** misty_rr_mov: copy `src` into `dst` through tp. */
  function RrMovPlan(dst: nat, src: nat): Result<seq<Emission>, Fault> {
    var p :- RegPtrPlan(src);
    Ok(p + [Emission("load % %", [RegOp(TP), RegOp(dst)])])
  }

  /** misty_conv_tv_reg: the operand's value is always left in tv. */
  function ConvTvRegPlan(v: Value): Result<Materialized, Fault> {
    match v
    case Imm(k) => Ok(Materialized([Emission("set % &", [RegOp(TV), IntOp(k)])], TV))
    case Reg(r) =>
      var m :- RrMovPlan(TV, Conv(r));
      Ok(Materialized(m, TV))
    case OtherKind(_) => Err(UnknownKind)
  }

  /** misty_emit_mov: move an operand into slot `dst`. */
  function MovPlan(dst: nat, v: Value): Result<seq<Emission>, Fault> {
    match v
    case Imm(k) => Ok([Emission("set % &", [RegOp(dst), IntOp(k)])])
    case Reg(r) => RrMovPlan(dst, Conv(r))
    case OtherKind(_) => Err(UnknownKind)
  }

  /**
   * The opcode switch of misty_emit_inst.  For ADD the two arguments of the
   * final misty_emit are taken left to right: the pointer line first.
   */
  function InstPlan(inst: Inst): Result<seq<Emission>, Fault> {
    match inst.op
    case MOV => MovPlan(Conv(inst.dst), inst.src)
    case ADD =>
      var p :- RegPtrPlan(Conv(inst.dst));
      var m :- ConvRegPlan(inst.src);
      Ok(p + (m.emits + [Emission("add % %", [RegOp(TP), RegOp(m.slot)])]))
    case SUB =>
      var m :- ConvTvRegPlan(inst.src);
      var p1 :- RegPtrPlan(TV);
      var p2 :- RegPtrPlan(Conv(inst.dst));
      Ok(m.emits + (p1 + ([Emission("neg %", [RegOp(TP)])] + (p2 + [Emission("add % %", [RegOp(TP), RegOp(TV)])]))))
    case LOAD =>
      var m :- ConvRegPlan(inst.src);
      Ok(m.emits + [Emission("load % %", [RegOp(m.slot), RegOp(Conv(inst.dst))])])
    case STORE =>
      var m :- ConvRegPlan(inst.src);
      Ok(m.emits + [Emission("store % %", [RegOp(m.slot), RegOp(Conv(inst.dst))])])
    case PUTC =>
      var m :- ConvRegPlan(inst.src);
      Ok(m.emits + [Emission("#putc %", [RegOp(m.slot)])])
    case GETC => Ok([Emission("#getc %", [RegOp(Conv(inst.dst))])])
    case EXIT => Ok([Emission("halt", [])])
    case DUMP => Ok([])
    case EQ | NE | LT | GT | LE | GE => Ok([Emission("; na", [])])
    case JEQ | JNE | JLT | JGT | JLE | JGE => Ok([Emission("; na", [])])
    case JMP => MovPlan(PC, inst.jmp)
    case OtherOp(_) => Err(UnknownOpcode)
  }

  /** The mnemonics of the backend's register templates, each followed by its space. */
  lemma TemplateWords()
    ensures NoHoles("set ") && "set % %" == "set " + "% %" && "set % &" == "set " + "% &"
    ensures NoHoles("#def ") && "#def % &" == "#def " + "% &"
    ensures NoHoles("load ") && "load % %" == "load " + "% %"
    ensures NoHoles("store ") && "store % %" == "store " + "% %"
    ensures NoHoles("add ") && "add % %" == "add " + "% %"
    ensures NoHoles("neg ") && "neg %" == "neg " + "%"
    ensures NoHoles("#putc ") && "#putc %" == "#putc " + "%"
    ensures NoHoles("#getc ") && "#getc %" == "#getc " + "%"
  {
  }

  /** A template `w% %`, such as "set % %", "load % %", "store % %" or "add % %", takes two registers. */
  lemma FitsRegReg(w: string, t: string, a: nat, b: nat)
    requires NoHoles(w) && t == w + "% %"
    ensures Fits(t, [RegOp(a), RegOp(b)])
  {
    FitsAfterWord(w, "% %", [RegOp(a), RegOp(b)]);
  }

  /** A template `w% &`, such as "set % &" or "#def % &", takes a register, then an int. */
  lemma FitsRegInt(w: string, t: string, a: nat, k: int)
    requires NoHoles(w) && t == w + "% &"
    ensures Fits(t, [RegOp(a), IntOp(k)])
  {
    FitsAfterWord(w, "% &", [RegOp(a), IntOp(k)]);
  }

  /** A template `w%`, such as "neg %", "#putc %" or "#getc %", takes one register. */
  lemma FitsReg(w: string, t: string, a: nat)
    requires NoHoles(w) && t == w + "%"
    ensures Fits(t, [RegOp(a)])
  {
    FitsAfterWord(w, "%", [RegOp(a)]);
  }

  /** A template without placeholders, such as "halt", "; na" or "", takes no operands. */
  lemma FitsWord(w: string)
    requires NoHoles(w)
    ensures Fits(w, [])
  {
    FitsAfterWord(w, "", []);
    assert w + "" == w;
  }

  /** The lines a plan writes at depth `indent`, or the fault that stops it. */
  function Emitted(indent: nat, names: NameTable, plan: Result<seq<Emission>, Fault>): Result<seq<string>, Fault> {
    var es :- plan;
    Lines(indent, names, es)
  }

  /** The lines a materialization helper writes. */
  function MatLines(indent: nat, names: NameTable, m: Result<Materialized, Fault>): Result<seq<string>, Fault> {
    var mm :- m;
    Lines(indent, names, mm.emits)
  }

  /** The SUB plan succeeds exactly when each of its five steps does, and writes their lines in turn. */
  lemma SubLines(indent: nat, names: NameTable, inst: Inst)
    requires inst.op == SUB
    ensures var m, p1, n := MatLines(indent, names, ConvTvRegPlan(inst.src)), Emitted(indent, names, RegPtrPlan(TV)), Line(indent, names, Emission("neg %", [RegOp(TP)]));
      var p2, a := Emitted(indent, names, RegPtrPlan(Conv(inst.dst))), Line(indent, names, Emission("add % %", [RegOp(TP), RegOp(TV)]));
      var r := Emitted(indent, names, InstPlan(inst));
      (r.Ok? <==> m.Ok? && p1.Ok? && n.Ok? && p2.Ok? && a.Ok?) &&
      (r.Ok? ==> r.value == m.value + (p1.value + ([n.value] + (p2.value + [a.value]))))
  {
    var d := Conv(inst.dst);
    var p1 := [Emission("set % %", [RegOp(TP), RegOp(TV)])];
    var neg := Emission("neg %", [RegOp(TP)]);
    var p2 := [Emission("set % %", [RegOp(TP), RegOp(d)])];
    var add := Emission("add % %", [RegOp(TP), RegOp(TV)]);
    LinesSingle(indent, names, neg);
    LinesSingle(indent, names, add);
    var m := ConvTvRegPlan(inst.src);
    if m.Ok? {
      assert InstPlan(inst) == Ok(m.value.emits + (p1 + ([neg] + (p2 + [add]))));
      LinesConcat(indent, names, m.value.emits, p1 + ([neg] + (p2 + [add])));
      LinesConcat(indent, names, p1, [neg] + (p2 + [add]));
      LinesConcat(indent, names, [neg], p2 + [add]);
      LinesConcat(indent, names, p2, [add]);
    }
  }

  /**
   * The disassembly comment misty_emit_inst writes before an instruction:
   * the "\n" of "\n; " ends an empty line, then "; " and the text of
   * dump_inst_fp, which is taken as one line.
   */
  function Comment(dump: Inst -> string, inst: Inst): seq<string> {
    ["", "; " + dump(inst)]
  }

  /** misty_emit_inst: the comment, then the instruction's lines one level deeper. */
  function InstLines(indent: nat, names: NameTable, dump: Inst -> string, inst: Inst): Result<seq<string>, Fault> {
    var ls :- Emitted(indent + 1, names, InstPlan(inst));
    Ok(Comment(dump, inst) + ls)
  }

  /** The two declaration loops of target_misty and its blank line. */
  function PreamblePlan(): seq<Emission> {
    seq(LastMistyReg, i requires 0 <= i => Emission("#def % &", [RegOp(i), IntOp(i)]))
    + seq(RegCount, i requires 0 <= i => Emission("#def % &", [RegOp(Conv(i)), IntOp(Conv(i))]))
    + [Emission("", [])]
  }

  /** The instructions translated one after another, in list order. */
  function InstsLines(indent: nat, names: NameTable, dump: Inst -> string, insts: seq<Inst>): Result<seq<string>, Fault>
    decreases |insts|
  {
    if insts == [] then Ok([])
    else
      var first :- InstLines(indent, names, dump, insts[0]);
      var rest :- InstsLines(indent, names, dump, insts[1..]);
      Ok(first + rest)
  }

  /** target_misty: the preamble at depth 0, then every instruction. */
  function ProgramLines(names: NameTable, dump: Inst -> string, insts: seq<Inst>): Result<seq<string>, Fault> {
    var pre :- Lines(0, names, PreamblePlan());
    var body :- InstsLines(0, names, dump, insts);
    Ok(pre + body)
  }

  /** An operand the backend can materialize: an immediate or one of the six registers. */
  predicate ValueOk(v: Value) {
    match v
    case Imm(_) => true
    case Reg(r) => r < RegCount
    case OtherKind(_) => false
  }

  /** What each opcode needs of the fields it reads, independently of how it is translated. */
  predicate WellFormed(inst: Inst) {
    match inst.op
    case MOV | ADD | SUB | LOAD | STORE => inst.dst < RegCount && ValueOk(inst.src)
    case PUTC => ValueOk(inst.src)
    case GETC => inst.dst < RegCount
    case EXIT | DUMP => true
    case EQ | NE | LT | GT | LE | GE => true
    case JEQ | JNE | JLT | JGT | JLE | JGE => true
    case JMP => ValueOk(inst.jmp)
    case OtherOp(_) => false
  }

  /** The text of the preamble: nine `#def NAME SLOT` lines, then a blank line. */
  function PreambleText(names: NameTable): seq<string> {
    seq(LastMistyReg, i requires 0 <= i < LastMistyReg => "#def " + SpecialNames[i] + " " + DecimalText.Decimal(i))
    + seq(RegCount, i requires 0 <= i < RegCount => "#def " + names[i] + " " + DecimalText.Decimal(Conv(i)))
    + [""]
  }

  /** Line `i` of the preamble, for one of the three misty registers. */
  lemma PreambleSpecialLine(names: NameTable, i: nat)
    requires i < LastMistyReg
    ensures |PreambleText(names)| == LastMistyReg + RegCount + 1
    ensures Line(0, names, Emission("#def % &", [RegOp(i), IntOp(i)])) == Ok(PreambleText(names)[i])
  {
    var specialText := seq(LastMistyReg, i requires 0 <= i < LastMistyReg => "#def " + SpecialNames[i] + " " + DecimalText.Decimal(i));
    var regText := seq(RegCount, i requires 0 <= i < RegCount => "#def " + names[i] + " " + DecimalText.Decimal(Conv(i)));
    assert PreambleText(names) == specialText + regText + [""];
    assert PreambleText(names)[i] == specialText[i];
    assert NoHoles("#def");
    assert "#def % &" == "#def" + " % &";
    LineRegInt(0, names, "#def", i, i);
    assert Spaces(0) + "#def" + " " + SpecialNames[i] == "#def " + SpecialNames[i];
  }

  /** Line 3 + r of the preamble, for IR register r. */
  lemma PreambleRegLine(names: NameTable, r: nat)
    requires r < RegCount
    ensures |PreambleText(names)| == LastMistyReg + RegCount + 1
    ensures Line(0, names, Emission("#def % &", [RegOp(Conv(r)), IntOp(Conv(r))])) == Ok(PreambleText(names)[LastMistyReg + r])
  {
    var specialText := seq(LastMistyReg, i requires 0 <= i < LastMistyReg => "#def " + SpecialNames[i] + " " + DecimalText.Decimal(i));
    var regText := seq(RegCount, i requires 0 <= i < RegCount => "#def " + names[i] + " " + DecimalText.Decimal(Conv(i)));
    assert PreambleText(names) == specialText + regText + [""];
    assert PreambleText(names)[LastMistyReg + r] == regText[r];
    assert NoHoles("#def");
    assert "#def % &" == "#def" + " % &";
    LineRegInt(0, names, "#def", Conv(r), Conv(r));
    assert Spaces(0) + "#def" + " " + names[r] == "#def " + names[r];
  }

  /** The last line of the preamble is empty. */
  lemma PreambleBlankLine(names: NameTable)
    ensures |PreambleText(names)| == LastMistyReg + RegCount + 1
    ensures Line(0, names, Emission("", [])) == Ok(PreambleText(names)[LastMistyReg + RegCount])
  {
    var specialText := seq(LastMistyReg, i requires 0 <= i < LastMistyReg => "#def " + SpecialNames[i] + " " + DecimalText.Decimal(i));
    var regText := seq(RegCount, i requires 0 <= i < RegCount => "#def " + names[i] + " " + DecimalText.Decimal(Conv(i)));
    assert PreambleText(names) == specialText + regText + [""];
    assert NoHoles("");
    LinePlain(0, names, "");
    assert Spaces(0) + "" == "";
  }

  /** Line `i` of the preamble. */
  lemma PreambleLineAt(names: NameTable, i: nat)
    requires i < |PreamblePlan()|
    ensures |PreambleText(names)| == |PreamblePlan()|
    ensures Line(0, names, PreamblePlan()[i]) == Ok(PreambleText(names)[i])
  {
    var specials := seq(LastMistyReg, i requires 0 <= i => Emission("#def % &", [RegOp(i), IntOp(i)]));
    var regs := seq(RegCount, i requires 0 <= i => Emission("#def % &", [RegOp(Conv(i)), IntOp(Conv(i))]));
    assert PreamblePlan() == specials + regs + [Emission("", [])];
    PreambleBlankLine(names);
    if i < LastMistyReg {
      assert PreamblePlan()[i] == specials[i];
      PreambleSpecialLine(names, i);
    } else if i < LastMistyReg + RegCount {
      assert PreamblePlan()[i] == regs[i - LastMistyReg];
      PreambleRegLine(names, i - LastMistyReg);
    } else {
      assert PreamblePlan()[i] == Emission("", []);
    }
  }

  /**
   * The preamble declares tv, tp and pc as slots 0..2 and the six IR
   * registers as slots 3..8, then writes an empty line; it cannot fail.
   */
  lemma PreambleLines(names: NameTable)
    ensures Lines(0, names, PreamblePlan()) == Ok(PreambleText(names))
  {
    var plan, text := PreamblePlan(), PreambleText(names);
    PreambleLineAt(names, 0);
    forall i | 0 <= i < |plan|
      ensures Line(0, names, plan[i]) == Ok(text[i])
    {
      PreambleLineAt(names, i);
    }
    LinesFromEach(0, names, plan, text);
  }

  /** Translating a concatenation of instruction lists is translating each list in turn. */
  lemma {:induction false} InstsLinesConcat(indent: nat, names: NameTable, dump: Inst -> string, a: seq<Inst>, b: seq<Inst>)
    ensures InstsLines(indent, names, dump, a + b).Ok? <==>
      InstsLines(indent, names, dump, a).Ok? && InstsLines(indent, names, dump, b).Ok?
    ensures InstsLines(indent, names, dump, a + b).Ok? ==>
      InstsLines(indent, names, dump, a + b).value == InstsLines(indent, names, dump, a).value + InstsLines(indent, names, dump, b).value
    decreases |a|
  {
    if a == [] {
      assert a + b == b;
    } else {
      assert (a + b)[0] == a[0];
      assert (a + b)[1..] == a[1..] + b;
      InstsLinesConcat(indent, names, dump, a[1..], b);
    }
  }

  /** A one-instruction list translates to that instruction's lines. */
  lemma InstsLinesSingle(indent: nat, names: NameTable, dump: Inst -> string, inst: Inst)
    ensures InstsLines(indent, names, dump, [inst]).Ok? <==> InstLines(indent, names, dump, inst).Ok?
    ensures InstLines(indent, names, dump, inst).Ok? ==>
      InstsLines(indent, names, dump, [inst]).value == InstLines(indent, names, dump, inst).value
  {
    assert [inst][0] == inst && [inst][1..] == [];
  }

  /**
   * One more instruction: the translation of the first n + 1 instructions is
   * that of the first n followed by instruction n, and when instruction n
   * fails, so does the whole list.
   */
  lemma InstsLinesStep(indent: nat, names: NameTable, dump: Inst -> string, insts: seq<Inst>, n: nat)
    requires n < |insts|
    ensures InstsLines(indent, names, dump, insts[..n + 1]).Ok? <==>
      InstsLines(indent, names, dump, insts[..n]).Ok? && InstLines(indent, names, dump, insts[n]).Ok?
    ensures InstsLines(indent, names, dump, insts[..n + 1]).Ok? ==>
      InstsLines(indent, names, dump, insts[..n + 1]).value ==
      InstsLines(indent, names, dump, insts[..n]).value + InstLines(indent, names, dump, insts[n]).value
    ensures !InstLines(indent, names, dump, insts[n]).Ok? ==> !InstsLines(indent, names, dump, insts).Ok?
  {
    InstsLinesSingle(indent, names, dump, insts[n]);
    assert insts[..n + 1] == insts[..n] + [insts[n]];
    InstsLinesConcat(indent, names, dump, insts[..n], [insts[n]]);
    assert insts == insts[..n + 1] + insts[n + 1..];
    InstsLinesConcat(indent, names, dump, insts[..n + 1], insts[n + 1..]);
  }
}

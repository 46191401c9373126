/**
 * What the misty backend writes, stated as text: the exact lines of each
 * helper and each opcode (target/misty.c), when translation succeeds, and
 * which instructions make it fail.
 */
module MistyProperties {
  import opened Wrappers
  import opened Ir
  import opened DecimalText
  import opened MistyRegs
  import opened MistyFormat
  import opened MistySelect

  // ---------------------------------------------------------------------
  // The line each template of the backend writes.
  // ---------------------------------------------------------------------

  /**
   * A two-register template `w% %` whose mnemonic `w` ends in its space,
   * such as "set % %", "load % %", "store % %" or "add % %": "w A B".
   */
  lemma RegRegText(indent: nat, names: NameTable, w: string, t: string, a: nat, b: nat)
    requires |w| >= 1 && w[|w| - 1] == ' ' && NoHoles(w) && t == w + "% %"
    requires a < SlotCount && b < SlotCount
    ensures Line(indent, names, Emission(t, [RegOp(a), RegOp(b)]))
         == Ok(Spaces(indent) + w + Name(names, a).value + " " + Name(names, b).value)
  {
    var m := w[..|w| - 1];
    assert w == m + " ";
    assert NoHoles(m) by {
      assert forall i | 0 <= i < |m| :: m[i] == w[i];
    }
    AppendAssoc(m, " ", "% %");
    assert " " + "% %" == " % %";
    LineRegReg(indent, names, m, a, b);
    AppendAssoc(Spaces(indent), m, " ");
  }

  /** A one-register template `w%`, such as "neg %", "#putc %" or "#getc %": "w R". */
  lemma RegText(indent: nat, names: NameTable, w: string, t: string, r: nat)
    requires |w| >= 1 && w[|w| - 1] == ' ' && NoHoles(w) && t == w + "%"
    requires r < SlotCount
    ensures Line(indent, names, Emission(t, [RegOp(r)])) == Ok(Spaces(indent) + w + Name(names, r).value)
  {
    var m := w[..|w| - 1];
    assert w == m + " ";
    assert NoHoles(m) by {
      assert forall i | 0 <= i < |m| :: m[i] == w[i];
    }
    AppendAssoc(m, " ", "%");
    assert " " + "%" == " %";
    LineReg(indent, names, m, r);
    AppendAssoc(Spaces(indent), m, " ");
  }

  /** `set % &`: "set D k". */
  lemma SetIntLine(indent: nat, names: NameTable, d: nat, k: int)
    requires d < SlotCount
    ensures Line(indent, names, Emission("set % &", [RegOp(d), IntOp(k)]))
         == Ok(Spaces(indent) + "set " + Name(names, d).value + " " + Decimal(k))
  {
    assert "set % &" == "set" + " % &";
    assert NoHoles("set");
    LineRegInt(indent, names, "set", d, k);
    assert Spaces(indent) + "set" + " " == Spaces(indent) + "set ";
  }

  /** `halt` and `; na` are written as they are. */
  lemma PlainLines(indent: nat, names: NameTable)
    ensures Line(indent, names, Emission("halt", [])) == Ok(Spaces(indent) + "halt")
    ensures Line(indent, names, Emission("; na", [])) == Ok(Spaces(indent) + "; na")
  {
    assert NoHoles("halt") && NoHoles("; na");
    LinePlain(indent, names, "halt");
    LinePlain(indent, names, "; na");
  }

  /** A register operand that is not one of the nine declared slots makes its line fail. */
  lemma UndeclaredSlotFails(indent: nat, names: NameTable, e: Emission)
    requires Fits(e.template, e.ops) && !SlotsDeclared(e.ops)
    ensures Line(indent, names, e).Err?
  {
    RenderDefined(names, e.template, e.ops);
  }

  /** Regrouping the words of a line after its indentation. */
  lemma JoinWords(p: string, a: string, b: string, c: string)
    ensures p + a + b + c == p + (a + b + c)
  {
    AppendAssoc(p, a, b);
    AppendAssoc(p, a + b, c);
  }

  // ---------------------------------------------------------------------
  // The helpers.
  // ---------------------------------------------------------------------

  /**
   * misty_conv_reg: an immediate k is written as the one line "set tv k" and
   * read from tv; a register is read in place and nothing is written.
   */
  lemma ConvRegText(indent: nat, names: NameTable, v: Value)
    ensures v.Imm? ==> (ConvRegPlan(v).Ok? && ConvRegPlan(v).value.slot == TV &&
                        MatLines(indent, names, ConvRegPlan(v)) == Ok([Spaces(indent) + "set tv " + Decimal(v.imm)]))
    ensures v.Reg? ==> (ConvRegPlan(v).Ok? && ConvRegPlan(v).value.slot == Conv(v.reg) &&
                        MatLines(indent, names, ConvRegPlan(v)) == Ok([]))
    ensures v.OtherKind? ==> ConvRegPlan(v) == Err(UnknownKind)
  {
    if v.Imm? {
      var e := Emission("set % &", [RegOp(TV), IntOp(v.imm)]);
      assert ConvRegPlan(v) == Ok(Materialized([e], TV));
      SetIntLine(indent, names, TV, v.imm);
      LinesSingle(indent, names, e);
      assert Spaces(indent) + "set " + "tv" + " " + Decimal(v.imm) == Spaces(indent) + "set tv " + Decimal(v.imm);
    }
  }

  /**
   * misty_reg_ptr: one line "set tp R" for any declared slot other than tp;
   * pointing tp at itself is the assertion failure.
   */
  lemma RegPtrText(indent: nat, names: NameTable, slot: nat)
    ensures slot == TP ==> RegPtrPlan(slot) == Err(PointerSelf)
    ensures slot != TP && slot < SlotCount ==>
      Emitted(indent, names, RegPtrPlan(slot)) == Ok([Spaces(indent) + "set tp " + Name(names, slot).value])
    ensures slot >= SlotCount ==> Emitted(indent, names, RegPtrPlan(slot)).Err?
  {
    if slot >= SlotCount {
      RegPtrUndeclared(indent, names, slot);
    } else if slot != TP {
      var e := Emission("set % %", [RegOp(TP), RegOp(slot)]);
      assert RegPtrPlan(slot) == Ok([e]);
      LinesSingle(indent, names, e);
      assert Line(indent, names, e) == Ok(Spaces(indent) + "set " + "tp" + " " + Name(names, slot).value) by {
        TemplateWords();
        RegRegText(indent, names, "set ", "set % %", TP, slot);
      }
      JoinWords(Spaces(indent), "set ", "tp", " ");
      assert "set " + "tp" + " " == "set tp ";
    }
  }

  lemma RegPtrUndeclared(indent: nat, names: NameTable, slot: nat)
    requires slot >= SlotCount
    ensures Emitted(indent, names, RegPtrPlan(slot)).Err?
  {
    var e := Emission("set % %", [RegOp(TP), RegOp(slot)]);
    assert RegPtrPlan(slot) == Ok([e]);
    LinesSingle(indent, names, e);
    assert Fits("set % %", [RegOp(TP), RegOp(slot)]) by { TemplateWords(); FitsRegReg("set ", "set % %", TP, slot); }
    assert e.ops[1] == RegOp(slot);
    UndeclaredSlotFails(indent, names, e);
  }

  /** misty_rr_mov: "set tp S", then "load tp D". */
  lemma RrMovText(indent: nat, names: NameTable, dst: nat, src: nat)
    ensures src == TP ==> RrMovPlan(dst, src) == Err(PointerSelf)
    ensures src != TP && src < SlotCount && dst < SlotCount ==>
      Emitted(indent, names, RrMovPlan(dst, src)) ==
      Ok([Spaces(indent) + "set tp " + Name(names, src).value, Spaces(indent) + "load tp " + Name(names, dst).value])
    ensures src >= SlotCount || dst >= SlotCount ==> Emitted(indent, names, RrMovPlan(dst, src)).Err?
  {
    if src != TP {
      var ptr := Emission("set % %", [RegOp(TP), RegOp(src)]);
      var load := Emission("load % %", [RegOp(TP), RegOp(dst)]);
      assert RrMovPlan(dst, src) == Ok([ptr] + [load]);
      RegPtrText(indent, names, src);
      assert RegPtrPlan(src) == Ok([ptr]);
      LinesConcat(indent, names, [ptr], [load]);
      LinesSingle(indent, names, load);
      if src >= SlotCount {
      } else if dst < SlotCount {
        assert Line(indent, names, load) == Ok(Spaces(indent) + "load " + "tp" + " " + Name(names, dst).value) by {
          TemplateWords();
          RegRegText(indent, names, "load ", "load % %", TP, dst);
        }
        JoinWords(Spaces(indent), "load ", "tp", " ");
        assert "load " + "tp" + " " == "load tp ";
        var l1 := Spaces(indent) + "set tp " + Name(names, src).value;
        var l2 := Spaces(indent) + "load tp " + Name(names, dst).value;
        assert Lines(indent, names, [ptr]) == Ok([l1]);
        assert Lines(indent, names, [load]) == Ok([l2]);
        assert [l1] + [l2] == [l1, l2];
      } else {
        LoadUndeclared(indent, names, dst);
      }
    }
  }

  lemma LoadUndeclared(indent: nat, names: NameTable, dst: nat)
    requires dst >= SlotCount
    ensures Line(indent, names, Emission("load % %", [RegOp(TP), RegOp(dst)])).Err?
  {
    var load := Emission("load % %", [RegOp(TP), RegOp(dst)]);
    assert Fits("load % %", [RegOp(TP), RegOp(dst)]) by { TemplateWords(); FitsRegReg("load ", "load % %", TP, dst); }
    assert load.ops[1] == RegOp(dst);
    UndeclaredSlotFails(indent, names, load);
  }

  /**
   * misty_conv_tv_reg: the operand always ends up in tv; an immediate takes
   * one line, a register two ("set tp R", then "load tp tv").
   */
  lemma ConvTvRegText(indent: nat, names: NameTable, v: Value)
    ensures ConvTvRegPlan(v).Ok? ==> ConvTvRegPlan(v).value.slot == TV
    ensures v.Imm? ==>
      MatLines(indent, names, ConvTvRegPlan(v)) == Ok([Spaces(indent) + "set tv " + Decimal(v.imm)])
    ensures v.Reg? && v.reg < RegCount ==>
      MatLines(indent, names, ConvTvRegPlan(v)) == Ok([Spaces(indent) + "set tp " + names[v.reg], Spaces(indent) + "load tp tv"])
    ensures v.Reg? && v.reg >= RegCount ==> MatLines(indent, names, ConvTvRegPlan(v)).Err?
    ensures v.OtherKind? ==> ConvTvRegPlan(v) == Err(UnknownKind)
  {
    match v {
      case Imm(k) => {
        ConvRegText(indent, names, v);
        assert ConvTvRegPlan(v) == ConvRegPlan(v);
      }
      case Reg(r) => {
        RrMovText(indent, names, TV, Conv(r));
        NameValues(names, r);
        assert MatLines(indent, names, ConvTvRegPlan(v)) == Emitted(indent, names, RrMovPlan(TV, Conv(r)));
        AppendAssoc(Spaces(indent), "load tp ", "tv");
        assert "load tp " + "tv" == "load tp tv";
      }
      case OtherKind(_) => {
      }
    }
  }

  /**
   * misty_emit_mov: an immediate k is one line "set D k"; a register goes
   * through tp, "set tp S" then "load tp D".
   */
  lemma MovText(indent: nat, names: NameTable, dst: nat, v: Value)
    requires dst < SlotCount
    ensures v.Imm? ==> Emitted(indent, names, MovPlan(dst, v)) == Ok([Spaces(indent) + "set " + Name(names, dst).value + " " + Decimal(v.imm)])
    ensures v.Reg? && v.reg < RegCount ==>
      Emitted(indent, names, MovPlan(dst, v)) == Ok([Spaces(indent) + "set tp " + names[v.reg], Spaces(indent) + "load tp " + Name(names, dst).value])
    ensures v.Reg? && v.reg >= RegCount ==> Emitted(indent, names, MovPlan(dst, v)).Err?
    ensures v.OtherKind? ==> MovPlan(dst, v) == Err(UnknownKind)
  {
    match v {
      case Imm(k) => {
        var e := Emission("set % &", [RegOp(dst), IntOp(k)]);
        assert MovPlan(dst, v) == Ok([e]);
        SetIntLine(indent, names, dst, k);
        LinesSingle(indent, names, e);
      }
      case Reg(r) => {
        RrMovText(indent, names, dst, Conv(r));
        NameValues(names, r);
      }
      case OtherKind(_) => {
      }
    }
  }

  // ---------------------------------------------------------------------
  // The opcodes.
  // ---------------------------------------------------------------------

  /** Where a read-only operand is read from: tv for an immediate, the register itself otherwise. */
  function OperandName(names: NameTable, v: Value): string
    requires ValueOk(v)
  {
    match v
    case Imm(_) => "tv"
    case Reg(r) => names[r]
  }

  /** The line that puts an immediate into tv before it is read; none for a register. */
  function Preload(pad: string, v: Value): seq<string> {
    match v
    case Imm(k) => [pad + "set tv " + Decimal(k)]
    case _ => []
  }

  /** The lines that leave a private copy of the operand in tv. */
  function CopyToTv(pad: string, names: NameTable, v: Value): seq<string>
    requires ValueOk(v)
  {
    match v
    case Imm(k) => [pad + "set tv " + Decimal(k)]
    case Reg(r) => [pad + "set tp " + names[r], pad + "load tp tv"]
  }

  /** The lines that move the operand into the register named `d`. */
  function MoveInto(pad: string, names: NameTable, d: string, v: Value): seq<string>
    requires ValueOk(v)
  {
    match v
    case Imm(k) => [pad + "set " + d + " " + Decimal(k)]
    case Reg(r) => [pad + "set tp " + names[r], pad + "load tp " + d]
  }

  /**
   * The misty text of one well-formed instruction at depth `indent`, opcode
   * by opcode, written out independently of the templates that produce it.
   */
  function Expected(indent: nat, names: NameTable, inst: Inst): seq<string>
    requires WellFormed(inst)
  {
    var pad := Spaces(indent);
    match inst.op
    case MOV => MoveInto(pad, names, names[inst.dst], inst.src)
    case ADD => [pad + "set tp " + names[inst.dst]] + (Preload(pad, inst.src) + [pad + "add tp " + OperandName(names, inst.src)])
    case SUB => CopyToTv(pad, names, inst.src) + [pad + "set tp tv", pad + "neg tp", pad + "set tp " + names[inst.dst], pad + "add tp tv"]
    case LOAD => Preload(pad, inst.src) + [pad + "load " + OperandName(names, inst.src) + " " + names[inst.dst]]
    case STORE => Preload(pad, inst.src) + [pad + "store " + OperandName(names, inst.src) + " " + names[inst.dst]]
    case PUTC => Preload(pad, inst.src) + [pad + "#putc " + OperandName(names, inst.src)]
    case GETC => [pad + "#getc " + names[inst.dst]]
    case EXIT => [pad + "halt"]
    case DUMP => []
    case EQ | NE | LT | GT | LE | GE => [pad + "; na"]
    case JEQ | JNE | JLT | JGT | JLE | JGE => [pad + "; na"]
    case JMP => MoveInto(pad, names, "pc", inst.jmp)
    case OtherOp(_) => []
  }

  /** The read-only materialization of a well-formed operand, as text. */
  lemma ConvRegWellFormed(indent: nat, names: NameTable, v: Value)
    requires ValueOk(v)
    ensures ConvRegPlan(v).Ok? && ConvRegPlan(v).value.slot < SlotCount
    ensures Name(names, ConvRegPlan(v).value.slot) == Ok(OperandName(names, v))
    ensures MatLines(indent, names, ConvRegPlan(v)) == Ok(Preload(Spaces(indent), v))
  {
    ConvRegText(indent, names, v);
    NameValues(names, if v.Reg? then v.reg else 0);
  }

  /** MOV and JMP: the source operand moved into dst or into pc. */
  lemma MoveText(indent: nat, names: NameTable, inst: Inst)
    requires inst.op == MOV || inst.op == JMP
    requires WellFormed(inst)
    ensures Emitted(indent, names, InstPlan(inst)) == Ok(Expected(indent, names, inst))
  {
    if inst.op == MOV {
      NameValues(names, inst.dst);
      MovText(indent, names, Conv(inst.dst), inst.src);
    } else {
      NameValues(names, 0);
      MovText(indent, names, PC, inst.jmp);
    }
  }

  /** ADD: "set tp D", the operand's preload if any, then "add tp X". */
  lemma AddText(indent: nat, names: NameTable, inst: Inst)
    requires inst.op == ADD && WellFormed(inst)
    ensures Emitted(indent, names, InstPlan(inst)) == Ok(Expected(indent, names, inst))
  {
    var pad := Spaces(indent);
    var d := Conv(inst.dst);
    NameValues(names, inst.dst);
    RegPtrText(indent, names, d);
    ConvRegWellFormed(indent, names, inst.src);
    var ptr := [Emission("set % %", [RegOp(TP), RegOp(d)])];
    var m := ConvRegPlan(inst.src).value;
    var add := Emission("add % %", [RegOp(TP), RegOp(m.slot)]);
    assert RegPtrPlan(d) == Ok(ptr);
    assert InstPlan(inst) == Ok(ptr + (m.emits + [add]));
    LinesConcat(indent, names, ptr, m.emits + [add]);
    LinesConcat(indent, names, m.emits, [add]);
    LinesSingle(indent, names, add);
    TemplateWords();
    RegRegText(indent, names, "add ", "add % %", TP, m.slot);
    JoinWords(pad, "add ", "tp", " ");
    assert "add " + "tp" + " " == "add tp ";
  }

  /** SUB's `neg %` and `add % %` lines: "neg tp" and "add tp tv". */
  lemma SubArithLines(indent: nat, names: NameTable)
    ensures Line(indent, names, Emission("neg %", [RegOp(TP)])) == Ok(Spaces(indent) + "neg tp")
    ensures Line(indent, names, Emission("add % %", [RegOp(TP), RegOp(TV)])) == Ok(Spaces(indent) + "add tp tv")
  {
    var pad := Spaces(indent);
    TemplateWords();
    RegText(indent, names, "neg ", "neg %", TP);
    RegRegText(indent, names, "add ", "add % %", TP, TV);
    AppendAssoc(pad, "neg ", "tp");
    assert "neg " + "tp" == "neg tp";
    JoinWords(pad, "add ", "tp", " ");
    AppendAssoc(pad, "add " + "tp" + " ", "tv");
    assert "add " + "tp" + " " + "tv" == "add tp tv";
  }

  /** The four fixed steps of SUB after the copy into tv, as text. */
  lemma SubSteps(indent: nat, names: NameTable, r: nat)
    requires r < RegCount
    ensures Emitted(indent, names, RegPtrPlan(TV)) == Ok([Spaces(indent) + "set tp tv"])
    ensures Line(indent, names, Emission("neg %", [RegOp(TP)])) == Ok(Spaces(indent) + "neg tp")
    ensures Emitted(indent, names, RegPtrPlan(Conv(r))) == Ok([Spaces(indent) + "set tp " + names[r]])
    ensures Line(indent, names, Emission("add % %", [RegOp(TP), RegOp(TV)])) == Ok(Spaces(indent) + "add tp tv")
  {
    var pad := Spaces(indent);
    NameValues(names, r);
    RegPtrText(indent, names, TV);
    RegPtrText(indent, names, Conv(r));
    SubArithLines(indent, names);
    AppendAssoc(pad, "set tp ", "tv");
    assert "set tp " + "tv" == "set tp tv";
  }


  /** SUB: the operand copied into tv, negated through tp, then added to dst. */
  lemma SubText(indent: nat, names: NameTable, inst: Inst)
    requires inst.op == SUB && WellFormed(inst)
    ensures Emitted(indent, names, InstPlan(inst)) == Ok(Expected(indent, names, inst))
  {
    var pad := Spaces(indent);
    SubLines(indent, names, inst);
    ConvTvRegText(indent, names, inst.src);
    SubSteps(indent, names, inst.dst);
    var m := CopyToTv(pad, names, inst.src);
    var l1, l2, l3, l4 := pad + "set tp tv", pad + "neg tp", pad + "set tp " + names[inst.dst], pad + "add tp tv";
    assert MatLines(indent, names, ConvTvRegPlan(inst.src)) == Ok(m);
    assert m + ([l1] + ([l2] + ([l3] + [l4]))) == m + [l1, l2, l3, l4];
  }

  /** LOAD, STORE and PUTC: the operand's preload if any, then the one line that reads it. */
  lemma OperandText(indent: nat, names: NameTable, inst: Inst)
    requires (inst.op == LOAD || inst.op == STORE || inst.op == PUTC) && WellFormed(inst)
    ensures Emitted(indent, names, InstPlan(inst)) == Ok(Expected(indent, names, inst))
  {
    ConvRegWellFormed(indent, names, inst.src);
    var m := ConvRegPlan(inst.src).value;
    var t := if inst.op == LOAD then "load % %" else if inst.op == STORE then "store % %" else "#putc %";
    var ops := if inst.op == PUTC then [RegOp(m.slot)] else [RegOp(m.slot), RegOp(Conv(inst.dst))];
    var last := Emission(t, ops);
    assert InstPlan(inst) == Ok(m.emits + [last]);
    LinesConcat(indent, names, m.emits, [last]);
    LinesSingle(indent, names, last);
    ReadLine(indent, names, inst, m.slot);
  }

  /** The line with which LOAD, STORE and PUTC read an operand held in slot `s`. */
  lemma ReadLine(indent: nat, names: NameTable, inst: Inst, s: nat)
    requires (inst.op == LOAD || inst.op == STORE || inst.op == PUTC) && WellFormed(inst) && s < SlotCount
    ensures inst.op == LOAD ==>
      Line(indent, names, Emission("load % %", [RegOp(s), RegOp(Conv(inst.dst))]))
        == Ok(Spaces(indent) + "load " + Name(names, s).value + " " + names[inst.dst])
    ensures inst.op == STORE ==>
      Line(indent, names, Emission("store % %", [RegOp(s), RegOp(Conv(inst.dst))]))
        == Ok(Spaces(indent) + "store " + Name(names, s).value + " " + names[inst.dst])
    ensures inst.op == PUTC ==>
      Line(indent, names, Emission("#putc %", [RegOp(s)]))
        == Ok(Spaces(indent) + "#putc " + Name(names, s).value)
  {
    TemplateWords();
    if inst.op == LOAD {
      NameValues(names, inst.dst);
      RegRegText(indent, names, "load ", "load % %", s, Conv(inst.dst));
    } else if inst.op == STORE {
      NameValues(names, inst.dst);
      RegRegText(indent, names, "store ", "store % %", s, Conv(inst.dst));
    } else {
      RegText(indent, names, "#putc ", "#putc %", s);
    }
  }

  /** GETC, EXIT, DUMP and the unsupported comparisons and conditional jumps: fixed text. */
  lemma FixedText(indent: nat, names: NameTable, inst: Inst)
    requires inst.op == GETC || inst.op == EXIT || inst.op == DUMP || IsComparison(inst.op) || IsCondJump(inst.op)
    requires WellFormed(inst)
    ensures Emitted(indent, names, InstPlan(inst)) == Ok(Expected(indent, names, inst))
  {
    PlainLines(indent, names);
    if inst.op == GETC {
      NameValues(names, inst.dst);
      TemplateWords();
      RegText(indent, names, "#getc ", "#getc %", Conv(inst.dst));
      LinesSingle(indent, names, Emission("#getc %", [RegOp(Conv(inst.dst))]));
    } else if inst.op == EXIT {
      LinesSingle(indent, names, Emission("halt", []));
    } else if inst.op.DUMP? {
    } else {
      assert InstPlan(inst) == Ok([Emission("; na", [])]);
      LinesSingle(indent, names, Emission("; na", []));
    }
  }

  /**
   * Every well-formed instruction translates to exactly its expected text:
   * the instruction selection of misty_emit_inst, opcode by opcode.
   */
  lemma InstText(indent: nat, names: NameTable, inst: Inst)
    requires WellFormed(inst)
    ensures Emitted(indent, names, InstPlan(inst)) == Ok(Expected(indent, names, inst))
  {
    match inst.op {
      case MOV => MoveText(indent, names, inst);
      case JMP => MoveText(indent, names, inst);
      case ADD => AddText(indent, names, inst);
      case SUB => SubText(indent, names, inst);
      case LOAD => OperandText(indent, names, inst);
      case STORE => OperandText(indent, names, inst);
      case PUTC => OperandText(indent, names, inst);
      case _ => FixedText(indent, names, inst);
    }
  }

  /** Every emission of a plan that writes its lines names only declared slots. */
  lemma LinesOkDeclared(indent: nat, names: NameTable, es: seq<Emission>)
    requires Lines(indent, names, es).Ok?
    ensures forall i | 0 <= i < |es| :: SlotsDeclared(es[i].ops)
  {
    LinesOneEach(indent, names, es);
    forall i | 0 <= i < |es|
      ensures SlotsDeclared(es[i].ops)
    {
      RenderDefined(names, es[i].template, es[i].ops);
    }
  }

  /** A slot named by a declared emission operand is one of the nine slots. */
  lemma DeclaredOperand(e: Emission, j: nat, slot: nat)
    requires SlotsDeclared(e.ops) && j < |e.ops| && e.ops[j] == RegOp(slot)
    ensures slot < SlotCount
  {
  }

  /** A read-only operand whose last use names a declared slot is an immediate or one of the six registers. */
  lemma ConvRegOk(v: Value, e: Emission)
    requires ConvRegPlan(v).Ok?
    requires SlotsDeclared(e.ops) && |e.ops| >= 1 && e.ops[0] == RegOp(ConvRegPlan(v).value.slot)
    ensures ValueOk(v)
  {
    DeclaredOperand(e, 0, ConvRegPlan(v).value.slot);
  }

  /** MOV and JMP translate only well-formed instructions. */
  lemma MoveOk(indent: nat, names: NameTable, inst: Inst)
    requires inst.op == MOV || inst.op == JMP
    requires Emitted(indent, names, InstPlan(inst)).Ok?
    ensures WellFormed(inst)
  {
    var d := if inst.op == MOV then Conv(inst.dst) else PC;
    var v := if inst.op == MOV then inst.src else inst.jmp;
    assert InstPlan(inst) == MovPlan(d, v);
    var es := InstPlan(inst).value;
    LinesOkDeclared(indent, names, es);
    match v {
      case Imm(k) => {
        assert es == [Emission("set % &", [RegOp(d), IntOp(k)])];
        DeclaredOperand(es[0], 0, d);
      }
      case Reg(r) => {
        assert es == [Emission("set % %", [RegOp(TP), RegOp(Conv(r))]), Emission("load % %", [RegOp(TP), RegOp(d)])];
        DeclaredOperand(es[0], 1, Conv(r));
        DeclaredOperand(es[1], 1, d);
      }
    }
  }

  /** ADD translates only well-formed instructions. */
  lemma AddOk(indent: nat, names: NameTable, inst: Inst)
    requires inst.op == ADD && Emitted(indent, names, InstPlan(inst)).Ok?
    ensures WellFormed(inst)
  {
    var es := InstPlan(inst).value;
    LinesOkDeclared(indent, names, es);
    var d := Conv(inst.dst);
    var m := ConvRegPlan(inst.src).value;
    var add := Emission("add % %", [RegOp(TP), RegOp(m.slot)]);
    assert es == [Emission("set % %", [RegOp(TP), RegOp(d)])] + (m.emits + [add]);
    assert es[0] == Emission("set % %", [RegOp(TP), RegOp(d)]) && es[|es| - 1] == add;
    DeclaredOperand(es[0], 1, d);
    DeclaredOperand(es[|es| - 1], 1, m.slot);
  }

  /** SUB translates only well-formed instructions. */
  lemma SubOk(indent: nat, names: NameTable, inst: Inst)
    requires inst.op == SUB && Emitted(indent, names, InstPlan(inst)).Ok?
    ensures WellFormed(inst)
  {
    var es := InstPlan(inst).value;
    LinesOkDeclared(indent, names, es);
    var d := Conv(inst.dst);
    var m := ConvTvRegPlan(inst.src).value;
    var p2 := Emission("set % %", [RegOp(TP), RegOp(d)]);
    var tail := [Emission("set % %", [RegOp(TP), RegOp(TV)]), Emission("neg %", [RegOp(TP)]), p2, Emission("add % %", [RegOp(TP), RegOp(TV)])];
    assert es == m.emits + tail;
    assert es[|m.emits| + 2] == p2;
    DeclaredOperand(es[|m.emits| + 2], 1, d);
    if inst.src.Reg? {
      var r := inst.src.reg;
      assert m.emits == [Emission("set % %", [RegOp(TP), RegOp(Conv(r))]), Emission("load % %", [RegOp(TP), RegOp(TV)])];
      assert es[0] == m.emits[0];
      DeclaredOperand(es[0], 1, Conv(r));
    }
  }

  /** LOAD, STORE and PUTC translate only well-formed instructions. */
  lemma OperandOk(indent: nat, names: NameTable, inst: Inst)
    requires (inst.op == LOAD || inst.op == STORE || inst.op == PUTC) && Emitted(indent, names, InstPlan(inst)).Ok?
    ensures WellFormed(inst)
  {
    var es := InstPlan(inst).value;
    LinesOkDeclared(indent, names, es);
    var d := Conv(inst.dst);
    var m := ConvRegPlan(inst.src).value;
    var t := if inst.op == LOAD then "load % %" else if inst.op == STORE then "store % %" else "#putc %";
    var ops := if inst.op == PUTC then [RegOp(m.slot)] else [RegOp(m.slot), RegOp(d)];
    assert es == m.emits + [Emission(t, ops)];
    assert es[|es| - 1] == Emission(t, ops);
    ConvRegOk(inst.src, es[|es| - 1]);
    if inst.op != PUTC {
      DeclaredOperand(es[|es| - 1], 1, d);
    }
  }

  /** A translation that writes its lines comes from a well-formed instruction. */
  lemma OkIsWellFormed(indent: nat, names: NameTable, inst: Inst)
    requires Emitted(indent, names, InstPlan(inst)).Ok?
    ensures WellFormed(inst)
  {
    match inst.op {
      case MOV => MoveOk(indent, names, inst);
      case JMP => MoveOk(indent, names, inst);
      case ADD => AddOk(indent, names, inst);
      case SUB => SubOk(indent, names, inst);
      case LOAD => OperandOk(indent, names, inst);
      case STORE => OperandOk(indent, names, inst);
      case PUTC => OperandOk(indent, names, inst);
      case GETC => {
        var es := InstPlan(inst).value;
        LinesOkDeclared(indent, names, es);
        assert es == [Emission("#getc %", [RegOp(Conv(inst.dst))])];
        DeclaredOperand(es[0], 0, Conv(inst.dst));
      }
      case _ => {
      }
    }
  }

  /**
   * misty_emit_inst: an instruction is translated exactly when it is
   * well formed, into the disassembly comment followed by its expected
   * text one level deeper.
   */
  lemma InstDefined(indent: nat, names: NameTable, dump: Inst -> string, inst: Inst)
    ensures InstLines(indent, names, dump, inst).Ok? <==> WellFormed(inst)
    ensures WellFormed(inst) ==>
      InstLines(indent, names, dump, inst).value == Comment(dump, inst) + Expected(indent + 1, names, inst)
  {
    if WellFormed(inst) {
      InstText(indent + 1, names, inst);
    } else if Emitted(indent + 1, names, InstPlan(inst)).Ok? {
      OkIsWellFormed(indent + 1, names, inst);
    }
  }

  /** Every instruction of the list is well formed. */
  predicate AllWellFormed(insts: seq<Inst>) {
    forall i | 0 <= i < |insts| :: WellFormed(insts[i])
  }

  /** A non-empty list is well formed when its head and its tail are. */
  lemma AllWellFormedCons(insts: seq<Inst>)
    requires insts != []
    ensures AllWellFormed(insts) <==> WellFormed(insts[0]) && AllWellFormed(insts[1..])
  {
    assert forall i | 0 <= i < |insts| - 1 :: insts[1..][i] == insts[i + 1];
    if WellFormed(insts[0]) && AllWellFormed(insts[1..]) {
      forall i | 0 <= i < |insts|
        ensures WellFormed(insts[i])
      {
        if i > 0 {
          assert insts[i] == insts[1..][i - 1];
        }
      }
    }
  }

  /** Each instruction's comment and expected text, in list order, at depth 1. */
  function ExpectedBody(names: NameTable, dump: Inst -> string, insts: seq<Inst>): seq<string>
    requires AllWellFormed(insts)
    decreases |insts|
  {
    if insts == [] then []
    else
      AllWellFormedCons(insts);
      Comment(dump, insts[0]) + Expected(1, names, insts[0]) + ExpectedBody(names, dump, insts[1..])
  }

  /** The instruction list is translated exactly when each instruction is well formed. */
  lemma {:induction false} InstsDefined(names: NameTable, dump: Inst -> string, insts: seq<Inst>)
    ensures InstsLines(0, names, dump, insts).Ok? <==> AllWellFormed(insts)
    ensures AllWellFormed(insts) ==> InstsLines(0, names, dump, insts).value == ExpectedBody(names, dump, insts)
    decreases |insts|
  {
    if insts != [] {
      InstDefined(0, names, dump, insts[0]);
      InstsDefined(names, dump, insts[1..]);
      AllWellFormedCons(insts);
      if AllWellFormed(insts) {
        ExpectedBodyCons(names, dump, insts);
      }
    }
  }

  /**
   * target_misty: the program is translated exactly when every instruction
   * is well formed; the text is then the nine declarations and the blank
   * line, followed by every instruction once, in list order.
   */
  lemma ProgramDefined(names: NameTable, dump: Inst -> string, insts: seq<Inst>)
    ensures ProgramLines(names, dump, insts).Ok? <==> AllWellFormed(insts)
    ensures AllWellFormed(insts) ==>
      ProgramLines(names, dump, insts).value == PreambleText(names) + ExpectedBody(names, dump, insts)
  {
    PreambleLines(names);
    InstsDefined(names, dump, insts);
  }

  /** The assertion in misty_reg_ptr never fires: no opcode points tp at itself. */
  lemma NeverPointerSelf(inst: Inst)
    ensures InstPlan(inst) != Err(PointerSelf)
  {
  }

  /** SUB writes five lines for an immediate operand and six for a register. */
  lemma SubLineCount(indent: nat, names: NameTable, inst: Inst)
    requires inst.op == SUB && WellFormed(inst)
    ensures Emitted(indent, names, InstPlan(inst)).Ok?
    ensures |Emitted(indent, names, InstPlan(inst)).value| == if inst.src.Imm? then 5 else 6
  {
    InstText(indent, names, inst);
  }

  /**
   * The register a `set` or `load` emission assigns: `set D X` assigns D and
   * `load tp D` assigns D (misty_rr_mov copies into its second operand);
   * the other templates assign no register of their own naming.
   */
  function Assigned(e: Emission): set<nat> {
    if (e.template == "set % %" || e.template == "set % &") && |e.ops| >= 1 && e.ops[0].RegOp? then {e.ops[0].slot}
    else if e.template == "load % %" && |e.ops| == 2 && e.ops[1].RegOp? then {e.ops[1].slot}
    else {}
  }

  /** misty_emit_mov assigns only its destination and tp. */
  lemma MovAssigns(dst: nat, v: Value)
    requires MovPlan(dst, v).Ok?
    ensures forall i | 0 <= i < |MovPlan(dst, v).value| :: Assigned(MovPlan(dst, v).value[i]) <= {dst, TP}
  {
    var es := MovPlan(dst, v).value;
    if v.Imm? {
      assert es == [Emission("set % &", [RegOp(dst), IntOp(v.imm)])];
    } else {
      assert es == [Emission("set % %", [RegOp(TP), RegOp(Conv(v.reg))]), Emission("load % %", [RegOp(TP), RegOp(dst)])];
    }
  }

  /** JMP assigns only pc and tp, never an IR register. */
  lemma JmpAssigns(inst: Inst)
    requires inst.op == JMP && InstPlan(inst).Ok?
    ensures forall i | 0 <= i < |InstPlan(inst).value| :: Assigned(InstPlan(inst).value[i]) <= {PC, TP}
    ensures forall i, r: nat | 0 <= i < |InstPlan(inst).value| :: Conv(r) !in Assigned(InstPlan(inst).value[i])
  {
    MovAssigns(PC, inst.jmp);
  }

  // ---------------------------------------------------------------------
  // Worked examples.
  // ---------------------------------------------------------------------

  /** The five lines of `sub A, 3` one level deep. */
  lemma SubExampleText(names: NameTable)
    ensures Expected(1, names, Inst(SUB, 0, Imm(3), Imm(0))) ==
      [" set tv 3", " set tp tv", " neg tp", " set tp " + names[0], " add tp tv"]
  {
    var pad := Spaces(1);
    assert pad == " ";
    assert Decimal(3) == "3";
    assert CopyToTv(pad, names, Imm(3)) == [" " + "set tv " + "3"];
    assert " " + "set tv " + "3" == " set tv 3";
    assert " " + "set tp tv" == " set tp tv" && " " + "neg tp" == " neg tp" && " " + "add tp tv" == " add tp tv";
    assert " " + "set tp " == " set tp ";
  }

  /** `sub A, 3` inside target_misty: the comment, then five lines one space deep. */
  lemma SubExample(names: NameTable, dump: Inst -> string)
    ensures var inst := Inst(SUB, 0, Imm(3), Imm(0));
      InstLines(0, names, dump, inst) ==
      Ok(["", "; " + dump(inst), " set tv 3", " set tp tv", " neg tp", " set tp " + names[0], " add tp tv"])
  {
    var inst := Inst(SUB, 0, Imm(3), Imm(0));
    InstDefined(0, names, dump, inst);
    SubExampleText(names);
    var ls := [" set tv 3", " set tp tv", " neg tp", " set tp " + names[0], " add tp tv"];
    assert WellFormed(inst);
    assert Comment(dump, inst) + ls == ["", "; " + dump(inst), ls[0], ls[1], ls[2], ls[3], ls[4]];
  }

  /** The two lines of `mov B, A` one level deep. */
  lemma MovExampleText(names: NameTable)
    ensures Expected(1, names, Inst(MOV, 1, Reg(0), Imm(0))) == [" set tp " + names[0], " load tp " + names[1]]
  {
    var pad := Spaces(1);
    assert pad == " ";
    assert " " + "set tp " == " set tp " && " " + "load tp " == " load tp ";
  }

  /** `mov B, A` inside target_misty: the copy goes through tp. */
  lemma MovExample(names: NameTable, dump: Inst -> string)
    ensures var inst := Inst(MOV, 1, Reg(0), Imm(0));
      InstLines(0, names, dump, inst) == Ok(["", "; " + dump(inst), " set tp " + names[0], " load tp " + names[1]])
  {
    var inst := Inst(MOV, 1, Reg(0), Imm(0));
    InstDefined(0, names, dump, inst);
    MovExampleText(names);
    var ls := [" set tp " + names[0], " load tp " + names[1]];
    assert WellFormed(inst);
    assert Comment(dump, inst) + ls == ["", "; " + dump(inst), ls[0], ls[1]];
  }

  /** The program `mov A, 10; mov B, 3; add A, B; putc A; exit`. */
  function SmallProgram(): seq<Inst> {
    [Inst(MOV, 0, Imm(10), Imm(0)), Inst(MOV, 1, Imm(3), Imm(0)), Inst(ADD, 0, Reg(1), Imm(0)),
     Inst(PUTC, 0, Reg(0), Imm(0)), Inst(EXIT, 0, Imm(0), Imm(0))]
  }

  /** The text of each instruction of the small program, one level deep. */
  lemma SmallProgramText(names: NameTable)
    ensures AllWellFormed(SmallProgram())
    ensures Expected(1, names, SmallProgram()[0]) == [" set " + names[0] + " 10"]
    ensures Expected(1, names, SmallProgram()[1]) == [" set " + names[1] + " 3"]
    ensures Expected(1, names, SmallProgram()[2]) == [" set tp " + names[0], " add tp " + names[1]]
    ensures Expected(1, names, SmallProgram()[3]) == [" #putc " + names[0]]
    ensures Expected(1, names, SmallProgram()[4]) == [" halt"]
  {
    var p, pad := SmallProgram(), Spaces(1);
    assert pad == " ";
    assert Decimal(10) == "10" by {
      assert Digits(10) == Digits(1) + [DigitChar(0)];
    }
    assert Decimal(3) == "3";
    AppendAssoc(" set " + names[0], " ", "10");
    AppendAssoc(" set " + names[1], " ", "3");
    assert " " + "10" == " 10" && " " + "3" == " 3";
    assert " " + "set " == " set ";
    assert Expected(1, names, p[0]) == [pad + "set " + names[0] + " " + Decimal(10)];
    assert Expected(1, names, p[1]) == [pad + "set " + names[1] + " " + Decimal(3)];
    assert pad + "set " + names[0] + " " + Decimal(10) == " set " + names[0] + " " + "10";
    assert pad + "set " + names[1] + " " + Decimal(3) == " set " + names[1] + " " + "3";
    assert " " + "set tp " == " set tp " && " " + "add tp " == " add tp ";
    assert " " + "#putc " == " #putc " && " " + "halt" == " halt";
  }

  /** The expected text of a well-formed list: the head's comment and text, then the tail's. */
  lemma ExpectedBodyCons(names: NameTable, dump: Inst -> string, insts: seq<Inst>)
    requires insts != [] && AllWellFormed(insts)
    ensures AllWellFormed(insts[1..])
    ensures ExpectedBody(names, dump, insts) ==
      Comment(dump, insts[0]) + Expected(1, names, insts[0]) + ExpectedBody(names, dump, insts[1..])
  {
    AllWellFormedCons(insts);
  }

  /**
   * End to end: after the preamble, `mov A, 10; mov B, 3; add A, B;
   * putc A; exit` writes each comment followed by `set A 10`, `set B 3`,
   * `set tp A` and `add tp B`, `#putc A` and `halt`, in that order.
   */
  lemma SmallProgramExample(names: NameTable, dump: Inst -> string)
    ensures var p := SmallProgram();
      ProgramLines(names, dump, p) == Ok(PreambleText(names)
        + (Comment(dump, p[0]) + [" set " + names[0] + " 10"]
        + (Comment(dump, p[1]) + [" set " + names[1] + " 3"]
        + (Comment(dump, p[2]) + [" set tp " + names[0], " add tp " + names[1]]
        + (Comment(dump, p[3]) + [" #putc " + names[0]]
        + (Comment(dump, p[4]) + [" halt"]))))))
  {
    var p := SmallProgram();
    SmallProgramText(names);
    ProgramDefined(names, dump, p);
    assert p[1..][1..] == p[2..] && p[2..][1..] == p[3..] && p[3..][1..] == p[4..] && p[4..][1..] == [];
    ExpectedBodyCons(names, dump, p);
    ExpectedBodyCons(names, dump, p[1..]);
    ExpectedBodyCons(names, dump, p[2..]);
    ExpectedBodyCons(names, dump, p[3..]);
    ExpectedBodyCons(names, dump, p[4..]);
    var b4 := Comment(dump, p[4]) + [" halt"];
    assert ExpectedBody(names, dump, p[4..]) == b4 + [];
    assert b4 + [] == b4;
  }
}

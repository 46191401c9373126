/**
 * The misty backend as the source runs it (target/misty.c): an emitter
 * object holding the readability indent (g_indent) and the output written
 * so far, one string per line, and methods that append to it.
 */
module MistyEmitter {
  import opened Wrappers
  import opened Ir
  import opened MistyRegs
  import opened MistyFormat
  import opened MistySelect

  class Emitter {
    /** g_indent: leading spaces of each emitted line. */
    var indent: nat
    /** stdout: the lines written so far, without their newlines. */
    var out: seq<string>
    /** reg_names: the IR register names. */
    const names: NameTable

    constructor (names: NameTable)
      ensures this.names == names && indent == 0 && out == []
    {
      this.names := names;
      indent := 0;
      out := [];
    }

    /**
     * misty_emit: `indent` spaces, then the template with each `%` replaced
     * by a register name and each `&` by a decimal number.  The operands must
     * match the placeholders, as C's varargs require of the caller.
     */
    method Emit(t: string, ops: seq<Operand>) returns (ok: bool)
      requires Fits(t, ops)
      modifies this`out
      ensures ok == Line(indent, names, Emission(t, ops)).Ok?
      ensures out == if ok then old(out) + [Line(indent, names, Emission(t, ops)).value] else old(out)
    {
      var line := "";
      var i := 0;
      while i < indent
        invariant 0 <= i <= indent && line == Spaces(i)
      {
        line := line + " ";
        i := i + 1;
      }
      var j, k := 0, 0;
      while j < |t|
        invariant 0 <= j <= |t| && 0 <= k <= |ops|
        invariant out == old(out)
        invariant Fits(t[j..], ops[k..])
        invariant Line(indent, names, Emission(t, ops)) == Prefixed(line, Render(names, t[j..], ops[k..]))
      {
        assert t[j..][0] == t[j] && t[j..][1..] == t[j + 1..];
        RenderStep(names, t[j..], ops[k..]);
        if t[j] == '%' {
          assert ops[k..][0] == ops[k] && ops[k..][1..] == ops[k + 1..];
          var n := Name(names, ops[k].slot);
          if n.Err? {
            return false;
          }
          PrefixedTwice(line, n.value, Render(names, t[j + 1..], ops[k + 1..]));
          line := line + n.value;
          k := k + 1;
        } else if t[j] == '&' {
          assert ops[k..][0] == ops[k] && ops[k..][1..] == ops[k + 1..];
          PrefixedTwice(line, DecimalText.Decimal(ops[k].n), Render(names, t[j + 1..], ops[k + 1..]));
          line := line + DecimalText.Decimal(ops[k].n);
          k := k + 1;
        } else {
          PrefixedTwice(line, [t[j]], Render(names, t[j + 1..], ops[k..]));
          line := line + [t[j]];
        }
        j := j + 1;
      }
      assert ops[k..] == [] && t[j..] == [];
      assert line + "" == line;
      out := out + [line];
      ok := true;
    }

    /** misty_conv_reg. */
    method ConvReg(v: Value) returns (ok: bool, slot: nat)
      modifies this`out
      ensures ok == MatLines(indent, names, ConvRegPlan(v)).Ok?
      ensures ok ==> slot == ConvRegPlan(v).value.slot && out == old(out) + MatLines(indent, names, ConvRegPlan(v)).value
      ensures !ok ==> out == old(out)
    {
      match v {
        case Imm(k) =>
          assert Fits("set % &", [RegOp(TV), IntOp(k)]) by { TemplateWords(); FitsRegInt("set ", "set % &", TV, k); }
          ok := Emit("set % &", [RegOp(TV), IntOp(k)]);
          LinesSingle(indent, names, Emission("set % &", [RegOp(TV), IntOp(k)]));
          slot := TV;
        case Reg(r) =>
          ok, slot := true, Conv(r);
        case OtherKind(_) =>
          ok, slot := false, TV;
      }
    }

    /** misty_reg_ptr. */
    method RegPtr(slot: nat) returns (ok: bool, p: nat)
      modifies this`out
      ensures ok == Emitted(indent, names, RegPtrPlan(slot)).Ok?
      ensures ok ==> p == TP && out == old(out) + Emitted(indent, names, RegPtrPlan(slot)).value
      ensures !ok ==> out == old(out)
    {
      if slot == TP {
        return false, TP;
      }
      assert Fits("set % %", [RegOp(TP), RegOp(slot)]) by { TemplateWords(); FitsRegReg("set ", "set % %", TP, slot); }
      ok := Emit("set % %", [RegOp(TP), RegOp(slot)]);
      LinesSingle(indent, names, Emission("set % %", [RegOp(TP), RegOp(slot)]));
      p := TP;
    }

    /** misty_rr_mov. */
    method RrMov(dst: nat, src: nat) returns (ok: bool)
      modifies this`out
      ensures ok == Emitted(indent, names, RrMovPlan(dst, src)).Ok?
      ensures ok ==> out == old(out) + Emitted(indent, names, RrMovPlan(dst, src)).value
      ensures !ok ==> old(out) <= out
    {
      var load := Emission("load % %", [RegOp(TP), RegOp(dst)]);
      if src == TP {
        assert RrMovPlan(dst, src) == Err(PointerSelf);
        return false;
      }
      var ptr := [Emission("set % %", [RegOp(TP), RegOp(src)])];
      assert RrMovPlan(dst, src) == Ok(ptr + [load]);
      LinesConcat(indent, names, ptr, [load]);
      LinesSingle(indent, names, load);
      var p;
      ok, p := RegPtr(src);
      if !ok {
        return;
      }
      ghost var mid := out;
      assert Fits("load % %", [RegOp(p), RegOp(dst)]) by { TemplateWords(); FitsRegReg("load ", "load % %", p, dst); }
      ok := Emit("load % %", [RegOp(p), RegOp(dst)]);
      if ok {
        AppendAssoc(old(out), Lines(indent, names, ptr).value, Lines(indent, names, [load]).value);
      }
    }

    /** misty_conv_tv_reg. */
    method ConvTvReg(v: Value) returns (ok: bool, slot: nat)
      modifies this`out
      ensures ok == MatLines(indent, names, ConvTvRegPlan(v)).Ok?
      ensures ok ==> slot == TV && out == old(out) + MatLines(indent, names, ConvTvRegPlan(v)).value
      ensures !ok ==> old(out) <= out
    {
      match v {
        case Imm(k) =>
          assert Fits("set % &", [RegOp(TV), IntOp(k)]) by { TemplateWords(); FitsRegInt("set ", "set % &", TV, k); }
          ok := Emit("set % &", [RegOp(TV), IntOp(k)]);
          LinesSingle(indent, names, Emission("set % &", [RegOp(TV), IntOp(k)]));
        case Reg(r) =>
          ok := RrMov(TV, Conv(r));
        case OtherKind(_) =>
          ok := false;
      }
      slot := TV;
    }

    /** misty_emit_mov. */
    method EmitMov(dst: nat, v: Value) returns (ok: bool)
      modifies this`out
      ensures ok == Emitted(indent, names, MovPlan(dst, v)).Ok?
      ensures ok ==> out == old(out) + Emitted(indent, names, MovPlan(dst, v)).value
      ensures !ok ==> old(out) <= out
    {
      match v {
        case Imm(k) =>
          assert Fits("set % &", [RegOp(dst), IntOp(k)]) by { TemplateWords(); FitsRegInt("set ", "set % &", dst, k); }
          ok := Emit("set % &", [RegOp(dst), IntOp(k)]);
          LinesSingle(indent, names, Emission("set % &", [RegOp(dst), IntOp(k)]));
        case Reg(r) =>
          ok := RrMov(dst, Conv(r));
        case OtherKind(_) =>
          ok := false;
      }
    }
  
    /**
     * misty_emit_inst: the disassembly comment, then the opcode's lines one
     * indent level deeper; the indent is restored unless the translation aborts.
     */
    method EmitInst(inst: Inst, dump: Inst -> string) returns (ok: bool)
      modifies this
      ensures ok == InstLines(old(indent), names, dump, inst).Ok?
      ensures ok ==> indent == old(indent) && out == old(out) + InstLines(old(indent), names, dump, inst).value
      ensures !ok ==> indent == old(indent) + 1 && old(out) <= out
    {
      out := out + Comment(dump, inst);
      indent := indent + 1;
      ok := EmitOp(inst);
      if !ok {
        return;
      }
      AppendAssoc(old(out), Comment(dump, inst), Emitted(indent, names, InstPlan(inst)).value);
      indent := indent - 1;
    }

    /** The opcode switch of misty_emit_inst. */
    method EmitOp(inst: Inst) returns (ok: bool)
      modifies this`out
      ensures ok == Emitted(indent, names, InstPlan(inst)).Ok?
      ensures ok ==> out == old(out) + Emitted(indent, names, InstPlan(inst)).value
      ensures !ok ==> old(out) <= out
    {
      var d := Conv(inst.dst);
      match inst.op {
        case MOV =>
          ok := EmitMov(d, inst.src);
        case ADD =>
          ok := EmitAdd(inst);
        case SUB =>
          ok := EmitSub(inst);
        case LOAD =>
          ok := EmitWithOperand(inst, "load % %", [RegOp(d)]);
        case STORE =>
          ok := EmitWithOperand(inst, "store % %", [RegOp(d)]);
        case PUTC =>
          ok := EmitWithOperand(inst, "#putc %", []);
        case GETC =>
          assert Fits("#getc %", [RegOp(d)]) by { TemplateWords(); FitsReg("#getc ", "#getc %", d); }
          ok := EmitLone(inst, "#getc %", [RegOp(d)]);
        case EXIT =>
          assert Fits("halt", []) by { FitsWord("halt"); }
          ok := EmitLone(inst, "halt", []);
        case DUMP =>
          ok := true;
        case EQ | NE | LT | GT | LE | GE =>
          ok := EmitNa(inst);
        case JEQ | JNE | JLT | JGT | JLE | JGE =>
          ok := EmitNa(inst);
        case JMP =>
          ok := EmitMov(PC, inst.jmp);
        case OtherOp(_) =>
          ok := false;
      }
    }

    /** An instruction whose translation is the single line `t`. */
    method EmitLone(ghost inst: Inst, t: string, ops: seq<Operand>) returns (ok: bool)
      requires InstPlan(inst) == Ok([Emission(t, ops)])
      requires Fits(t, ops)
      modifies this`out
      ensures ok == Emitted(indent, names, InstPlan(inst)).Ok?
      ensures ok ==> out == old(out) + Emitted(indent, names, InstPlan(inst)).value
      ensures !ok ==> old(out) <= out
    {
      ok := Emit(t, ops);
      LinesSingle(indent, names, Emission(t, ops));
    }

    /** Comparisons and conditional jumps are not supported: a "; na" marker line. */
    method EmitNa(inst: Inst) returns (ok: bool)
      requires IsComparison(inst.op) || IsCondJump(inst.op)
      modifies this`out
      ensures ok == Emitted(indent, names, InstPlan(inst)).Ok?
      ensures ok ==> out == old(out) + Emitted(indent, names, InstPlan(inst)).value
      ensures !ok ==> old(out) <= out
    {
      assert Fits("; na", []) by { FitsWord("; na"); }
      ok := EmitLone(inst, "; na", []);
    }

    /** The ADD case: point tp at dst, materialize src read-only, add. */
    method EmitAdd(inst: Inst) returns (ok: bool)
      requires inst.op == ADD
      modifies this`out
      ensures ok == Emitted(indent, names, InstPlan(inst)).Ok?
      ensures ok ==> out == old(out) + Emitted(indent, names, InstPlan(inst)).value
      ensures !ok ==> old(out) <= out
    {
      var d := Conv(inst.dst);
      var ptr := [Emission("set % %", [RegOp(TP), RegOp(d)])];
      var m := ConvRegPlan(inst.src);
      if m.Ok? {
        var add := Emission("add % %", [RegOp(TP), RegOp(m.value.slot)]);
        assert InstPlan(inst) == Ok(ptr + (m.value.emits + [add]));
        LinesConcat(indent, names, ptr, m.value.emits + [add]);
        LinesConcat(indent, names, m.value.emits, [add]);
        LinesSingle(indent, names, add);
      }
      var ok1, p := RegPtr(d);
      if !ok1 {
        return false;
      }
      var ok2, x := ConvReg(inst.src);
      if !ok2 {
        return false;
      }
      assert Fits("add % %", [RegOp(p), RegOp(x)]) by { TemplateWords(); FitsRegReg("add ", "add % %", p, x); }
      ok := Emit("add % %", [RegOp(p), RegOp(x)]);
      if ok {
        var add := Emission("add % %", [RegOp(TP), RegOp(m.value.slot)]);
        var lp, lm, la := Lines(indent, names, ptr).value, Lines(indent, names, m.value.emits).value, Lines(indent, names, [add]).value;
        AppendAssoc(old(out), lp, lm);
        AppendAssoc(old(out) + lp + lm, [], la);
        AppendAssoc(old(out), lp + lm, la);
        AppendAssoc(lp, lm, la);
      }
    }

    /** The SUB case: negate a private copy of src in tv, then add it to dst. */
    method EmitSub(inst: Inst) returns (ok: bool)
      requires inst.op == SUB
      modifies this`out
      ensures ok == Emitted(indent, names, InstPlan(inst)).Ok?
      ensures ok ==> out == old(out) + Emitted(indent, names, InstPlan(inst)).value
      ensures !ok ==> old(out) <= out
    {
      var d := Conv(inst.dst);
      SubLines(indent, names, inst);
      var ok1, tv := ConvTvReg(inst.src);
      if !ok1 {
        return false;
      }
      var ok2, p := RegPtr(tv);
      if !ok2 {
        return false;
      }
      assert Fits("neg %", [RegOp(p)]) by { TemplateWords(); FitsReg("neg ", "neg %", p); }
      var ok3 := Emit("neg %", [RegOp(p)]);
      if !ok3 {
        return false;
      }
      var ok4, p' := RegPtr(d);
      if !ok4 {
        return false;
      }
      assert Fits("add % %", [RegOp(p'), RegOp(TV)]) by { TemplateWords(); FitsRegReg("add ", "add % %", p', TV); }
      ok := Emit("add % %", [RegOp(p'), RegOp(TV)]);
      if ok {
        SumOfFive(old(out), MatLines(indent, names, ConvTvRegPlan(inst.src)).value,
          Emitted(indent, names, RegPtrPlan(TV)).value, [Line(indent, names, Emission("neg %", [RegOp(TP)])).value],
          Emitted(indent, names, RegPtrPlan(d)).value, [Line(indent, names, Emission("add % %", [RegOp(TP), RegOp(TV)])).value]);
      }
    }

    /**
     * The LOAD, STORE and PUTC cases: the source operand is materialized
     * read-only and becomes the first operand of `t`, followed by `rest`.
     */
    method EmitWithOperand(inst: Inst, t: string, rest: seq<Operand>) returns (ok: bool)
      requires inst.op == LOAD || inst.op == STORE || inst.op == PUTC
      requires inst.op == LOAD ==> t == "load % %" && rest == [RegOp(Conv(inst.dst))]
      requires inst.op == STORE ==> t == "store % %" && rest == [RegOp(Conv(inst.dst))]
      requires inst.op == PUTC ==> t == "#putc %" && rest == []
      modifies this`out
      ensures ok == Emitted(indent, names, InstPlan(inst)).Ok?
      ensures ok ==> out == old(out) + Emitted(indent, names, InstPlan(inst)).value
      ensures !ok ==> old(out) <= out
    {
      var m := ConvRegPlan(inst.src);
      if m.Ok? {
        var last := Emission(t, [RegOp(m.value.slot)] + rest);
        if inst.op == PUTC {
          assert [RegOp(m.value.slot)] + rest == [RegOp(m.value.slot)];
        } else {
          assert [RegOp(m.value.slot)] + rest == [RegOp(m.value.slot), RegOp(Conv(inst.dst))];
        }
        assert InstPlan(inst) == Ok(m.value.emits + [last]);
        LinesConcat(indent, names, m.value.emits, [last]);
        LinesSingle(indent, names, last);
      }
      var ok1, x := ConvReg(inst.src);
      if !ok1 {
        return false;
      }
      OperandTemplateFits(inst, t, rest, x);
      ok := Emit(t, [RegOp(x)] + rest);
      if ok {
        var last := Emission(t, [RegOp(m.value.slot)] + rest);
        AppendAssoc(old(out), Lines(indent, names, m.value.emits).value, Lines(indent, names, [last]).value);
      }
    }

    /** The two declaration loops of target_misty and the blank line after them. */
    method EmitPreamble()
      requires indent == 0
      modifies this`out
      ensures out == old(out) + PreambleText(names)
    {
      ghost var start := out;
      for i := 0 to LastMistyReg
        invariant out == start + PreambleText(names)[..i]
      {
        PreambleSpecialStep(names, i, start, out);
        assert Fits("#def % &", [RegOp(i), IntOp(i)]) by { TemplateWords(); FitsRegInt("#def ", "#def % &", i, i); }
        var defOk := Emit("#def % &", [RegOp(i), IntOp(i)]);
      }
      for i := 0 to RegCount
        invariant out == start + PreambleText(names)[..LastMistyReg + i]
      {
        PreambleRegStep(names, i, start, out);
        assert Fits("#def % &", [RegOp(Conv(i)), IntOp(Conv(i))]) by { TemplateWords(); FitsRegInt("#def ", "#def % &", Conv(i), Conv(i)); }
        var defOk := Emit("#def % &", [RegOp(Conv(i)), IntOp(Conv(i))]);
      }
      PreambleBlankStep(names, start, out);
      assert Fits("", []) by { FitsWord(""); }
      var blankOk := Emit("", []);
    }
  }

  /** The last template of LOAD, STORE and PUTC takes the operand's register, then `rest`. */
  lemma OperandTemplateFits(inst: Inst, t: string, rest: seq<Operand>, x: nat)
    requires inst.op == LOAD || inst.op == STORE || inst.op == PUTC
    requires inst.op == LOAD ==> t == "load % %" && rest == [RegOp(Conv(inst.dst))]
    requires inst.op == STORE ==> t == "store % %" && rest == [RegOp(Conv(inst.dst))]
    requires inst.op == PUTC ==> t == "#putc %" && rest == []
    ensures Fits(t, [RegOp(x)] + rest)
  {
    if inst.op == PUTC {
      FitsReg("#putc ", t, x);
      assert [RegOp(x)] + rest == [RegOp(x)];
    } else {
      FitsRegReg(if inst.op == LOAD then "load " else "store ", t, x, Conv(inst.dst));
      assert [RegOp(x)] + rest == [RegOp(x), RegOp(Conv(inst.dst))];
    }
  }

  /** One declaration of a misty register extends the preamble written so far by its line. */
  lemma PreambleSpecialStep(names: NameTable, i: nat, start: seq<string>, before: seq<string>)
    requires i < LastMistyReg
    requires before == start + PreambleText(names)[..i]
    ensures Line(0, names, Emission("#def % &", [RegOp(i), IntOp(i)])).Ok?
    ensures before + [Line(0, names, Emission("#def % &", [RegOp(i), IntOp(i)])).value]
         == start + PreambleText(names)[..i + 1]
  {
    PreambleSpecialLine(names, i);
    SnocPrefix(start, PreambleText(names), i);
  }

  /** One declaration of an IR register extends the preamble written so far by its line. */
  lemma PreambleRegStep(names: NameTable, r: nat, start: seq<string>, before: seq<string>)
    requires r < RegCount
    requires before == start + PreambleText(names)[..LastMistyReg + r]
    ensures Line(0, names, Emission("#def % &", [RegOp(Conv(r)), IntOp(Conv(r))])).Ok?
    ensures before + [Line(0, names, Emission("#def % &", [RegOp(Conv(r)), IntOp(Conv(r))])).value]
         == start + PreambleText(names)[..LastMistyReg + r + 1]
  {
    PreambleRegLine(names, r);
    SnocPrefix(start, PreambleText(names), LastMistyReg + r);
  }

  /** The closing blank line completes the preamble. */
  lemma PreambleBlankStep(names: NameTable, start: seq<string>, before: seq<string>)
    requires before == start + PreambleText(names)[..LastMistyReg + RegCount]
    ensures Line(0, names, Emission("", [])).Ok?
    ensures before + [Line(0, names, Emission("", [])).value] == start + PreambleText(names)
  {
    PreambleBlankLine(names);
    SnocPrefix(start, PreambleText(names), LastMistyReg + RegCount);
    assert PreambleText(names)[..LastMistyReg + RegCount + 1] == PreambleText(names);
  }

  /** Appending element `k` to a prefix of `s` gives the next prefix. */
  lemma SnocPrefix<T>(start: seq<T>, s: seq<T>, k: nat)
    requires k < |s|
    ensures start + s[..k] + [s[k]] == start + s[..k + 1]
  {
    assert s[..k + 1] == s[..k] + [s[k]];
    AppendAssoc(start, s[..k], [s[k]]);
  }

  /** Five appends in a row, regrouped to the right. */
  lemma SumOfFive<T>(o: seq<T>, a: seq<T>, b: seq<T>, c: seq<T>, d: seq<T>, e: seq<T>)
    ensures o + a + b + c + d + e == o + (a + (b + (c + (d + e))))
  {
  }

  /**
   * target_misty: the register declarations, a blank line, then each
   * instruction translated once, in list order.  The result is the text
   * written, one string per line; `ok` is false when translation aborts.
   */
  method TargetMisty(names: NameTable, insts: seq<Inst>, dump: Inst -> string) returns (ok: bool, text: seq<string>)
    ensures ok == ProgramLines(names, dump, insts).Ok?
    ensures ok ==> text == ProgramLines(names, dump, insts).value
  {
    var e := new Emitter(names);
    e.EmitPreamble();
    PreambleLines(names);
    ghost var preText := PreambleText(names);
    for n := 0 to |insts|
      invariant e.indent == 0 && e.names == names
      invariant InstsLines(0, names, dump, insts[..n]).Ok?
      invariant e.out == preText + InstsLines(0, names, dump, insts[..n]).value
    {
      ghost var before := InstsLines(0, names, dump, insts[..n]).value;
      var instOk := e.EmitInst(insts[n], dump);
      InstsLinesStep(0, names, dump, insts, n);
      if !instOk {
        return false, e.out;
      }
      AppendAssoc(preText, before, InstLines(0, names, dump, insts[n]).value);
    }
    assert insts[..|insts|] == insts;
    return true, e.out;
  }
}

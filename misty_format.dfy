/**
 * Emission primitives (target/misty.c, misty_emit): a template in which
 * each `%` takes the name of the next register operand and each `&` the
 * decimal text of the next integer operand, written as one line indented
 * by the current depth.
 */
module MistyFormat {
  import opened Wrappers
  import opened DecimalText
  import opened MistyRegs

  /** A vararg of misty_emit: a register slot for `%`, an int for `&`. */
  datatype Operand = RegOp(slot: nat) | IntOp(n: int)

  /** One call of misty_emit: its template and its operands. */
  datatype Emission = Emission(template: string, ops: seq<Operand>)

  predicate IsHole(c: char) {
    c == '%' || c == '&'
  }

  predicate NoHoles(s: string) {
    forall i | 0 <= i < |s| :: !IsHole(s[i])
  }

  /** Number of placeholders in a template. */
  function Holes(t: string): nat
    decreases |t|
  {
    if t == [] then 0 else (if IsHole(t[0]) then 1 else 0) + Holes(t[1..])
  }

  /** The operands match the placeholders one for one, in kind and in number. */
  predicate Fits(t: string, ops: seq<Operand>)
    decreases |t|
  {
    if t == [] then ops == []
    else if t[0] == '%' then ops != [] && ops[0].RegOp? && Fits(t[1..], ops[1..])
    else if t[0] == '&' then ops != [] && ops[0].IntOp? && Fits(t[1..], ops[1..])
    else Fits(t[1..], ops)
  }

  /** Every register operand names one of the declared slots. */
  predicate SlotsDeclared(ops: seq<Operand>) {
    forall i | 0 <= i < |ops| :: ops[i].RegOp? ==> ops[i].slot < SlotCount
  }

  function Prefixed(s: string, r: Result<string, Fault>): Result<string, Fault> {
    if r.Ok? then Ok(s + r.value) else r
  }

  /** The template with its placeholders substituted, left to right. */
  function Render(names: NameTable, t: string, ops: seq<Operand>): Result<string, Fault>
    decreases |t|
  {
    if t == [] then
      if ops == [] then Ok("") else Err(OperandMismatch)
    else if t[0] == '%' then
      if ops == [] || !ops[0].RegOp? then Err(OperandMismatch)
      else
        var n :- Name(names, ops[0].slot);
        var rest :- Render(names, t[1..], ops[1..]);
        Ok(n + rest)
    else if t[0] == '&' then
      if ops == [] || !ops[0].IntOp? then Err(OperandMismatch)
      else
        var rest :- Render(names, t[1..], ops[1..]);
        Ok(Decimal(ops[0].n) + rest)
    else
      var rest :- Render(names, t[1..], ops);
      Ok([t[0]] + rest)
  }

  function Spaces(n: nat): (s: string)
    ensures |s| == n && forall i | 0 <= i < n :: s[i] == ' '
  {
    if n == 0 then "" else Spaces(n - 1) + " "
  }

  /** The line misty_emit writes (without its newline), indented by `indent`. */
  function Line(indent: nat, names: NameTable, e: Emission): Result<string, Fault> {
    Prefixed(Spaces(indent), Render(names, e.template, e.ops))
  }

  /** The lines a sequence of misty_emit calls writes, one per call. */
  function Lines(indent: nat, names: NameTable, es: seq<Emission>): Result<seq<string>, Fault>
    decreases |es|
  {
    if es == [] then Ok([])
    else
      var l :- Line(indent, names, es[0]);
      var rest :- Lines(indent, names, es[1..]);
      Ok([l] + rest)
  }

  /** A template that fits its operands takes exactly one operand per placeholder. */
  lemma {:induction false} FitsConsumesAll(t: string, ops: seq<Operand>)
    requires Fits(t, ops)
    ensures |ops| == Holes(t)
    decreases |t|
  {
    if t != [] {
      if IsHole(t[0]) {
        FitsConsumesAll(t[1..], ops[1..]);
      } else {
        FitsConsumesAll(t[1..], ops);
      }
    }
  }

  /** Characters other than placeholders take no operands. */
  lemma {:induction false} FitsAfterWord(w: string, t: string, ops: seq<Operand>)
    requires NoHoles(w)
    ensures Fits(w + t, ops) <==> Fits(t, ops)
    decreases |w|
  {
    if w == [] {
      assert w + t == t;
    } else {
      assert (w + t)[0] == w[0] && (w + t)[1..] == w[1..] + t;
      assert NoHoles(w[1..]) by {
        assert forall i | 0 <= i < |w| - 1 :: w[1..][i] == w[i + 1];
      }
      FitsAfterWord(w[1..], t, ops);
    }
  }

  /** Rendering succeeds exactly when the operands fit and every register is declared. */
  lemma {:induction false} RenderDefined(names: NameTable, t: string, ops: seq<Operand>)
    ensures Render(names, t, ops).Ok? <==> Fits(t, ops) && SlotsDeclared(ops)
    decreases |t|
  {
    if t != [] {
      if IsHole(t[0]) {
        RenderDefined(names, t[1..], if ops == [] then [] else ops[1..]);
        if ops != [] {
          assert forall i | 1 <= i < |ops| :: ops[i] == ops[1..][i - 1];
        }
      } else {
        RenderDefined(names, t[1..], ops);
      }
    }
  }

  /** Prefixing is associative: prefixing `s` and then `u` is prefixing `u + s`. */
  lemma PrefixedTwice(u: string, s: string, r: Result<string, Fault>)
    ensures Prefixed(u, Prefixed(s, r)) == Prefixed(u + s, r)
  {
    if r.Ok? {
      assert u + (s + r.value) == (u + s) + r.value;
    }
  }

  /** One step of rendering: what the first character of a fitting template contributes. */
  lemma RenderStep(names: NameTable, t: string, ops: seq<Operand>)
    requires t != [] && Fits(t, ops)
    ensures t[0] == '%' ==>
      Render(names, t, ops) == (if Name(names, ops[0].slot).Ok? then Prefixed(Name(names, ops[0].slot).value, Render(names, t[1..], ops[1..])) else Err(SlotOutOfRange))
    ensures t[0] == '&' ==> Render(names, t, ops) == Prefixed(Decimal(ops[0].n), Render(names, t[1..], ops[1..]))
    ensures !IsHole(t[0]) ==> Render(names, t, ops) == Prefixed([t[0]], Render(names, t[1..], ops))
  {
  }

  /** Concatenation is associative; stated once so that proofs can cite it. */
  lemma AppendAssoc<T>(a: seq<T>, b: seq<T>, c: seq<T>)
    ensures (a + b) + c == a + (b + c)
  {
  }

  /** The five pieces of a two-operand line, regrouped from the way rendering builds them. */
  lemma Regroup5(p: string, a: string, b: string, c: string, d: string, e: string)
    ensures p + ((a + b) + (c + (d + (e + "")))) == p + a + b + c + d + e
  {
    assert e + "" == e;
    AppendAssoc(p, a + b, c + (d + e));
    AppendAssoc(p, a, b);
    AppendAssoc(p + a + b, c, d + e);
    AppendAssoc(p + a + b + c, d, e);
  }

  /** A character other than a placeholder is copied as it is. */
  lemma RenderChar(names: NameTable, c: char, u: string, ops: seq<Operand>)
    requires !IsHole(c)
    ensures Render(names, [c] + u, ops) == Prefixed([c], Render(names, u, ops))
  {
    assert ([c] + u)[0] == c;
    assert ([c] + u)[1..] == u;
  }

  /** Characters other than placeholders are copied verbatim. */
  lemma {:induction false} RenderVerbatim(names: NameTable, w: string, t: string, ops: seq<Operand>)
    requires NoHoles(w)
    ensures Render(names, w + t, ops) == Prefixed(w, Render(names, t, ops))
    decreases |w|
  {
    if w == [] {
      assert w + t == t;
      var r := Render(names, t, ops);
      if r.Ok? {
        assert w + r.value == r.value;
      }
    } else {
      var c, w' := w[0], w[1..];
      assert w == [c] + w';
      AppendAssoc([c], w', t);
      assert NoHoles(w') by {
        assert forall i | 0 <= i < |w'| :: w'[i] == w[i + 1];
      }
      RenderVerbatim(names, w', t, ops);
      RenderChar(names, c, w' + t, ops);
      PrefixedTwice([c], w', Render(names, t, ops));
    }
  }

  /** A `%` is replaced by the name of the next (register) operand. */
  lemma RenderRegHole(names: NameTable, t: string, s: nat, ops: seq<Operand>)
    requires s < SlotCount
    ensures Render(names, "%" + t, [RegOp(s)] + ops) == Prefixed(Name(names, s).value, Render(names, t, ops))
  {
    assert ("%" + t)[1..] == t;
    assert ([RegOp(s)] + ops)[1..] == ops;
  }

  /** A `&` is replaced by the decimal text of the next (integer) operand. */
  lemma RenderIntHole(names: NameTable, t: string, k: int, ops: seq<Operand>)
    ensures Render(names, "&" + t, [IntOp(k)] + ops) == Prefixed(Decimal(k), Render(names, t, ops))
  {
    assert ("&" + t)[1..] == t;
    assert ([IntOp(k)] + ops)[1..] == ops;
  }

  /** Lines of a concatenation are the concatenation of lines, and fail if either part fails. */
  lemma {:induction false} LinesConcat(indent: nat, names: NameTable, a: seq<Emission>, b: seq<Emission>)
    ensures Lines(indent, names, a + b).Ok? <==> Lines(indent, names, a).Ok? && Lines(indent, names, b).Ok?
    ensures Lines(indent, names, a + b).Ok? ==>
      Lines(indent, names, a + b).value == Lines(indent, names, a).value + Lines(indent, names, b).value
    decreases |a|
  {
    if a == [] {
      assert a + b == b;
    } else {
      assert (a + b)[0] == a[0];
      assert (a + b)[1..] == a[1..] + b;
      LinesConcat(indent, names, a[1..], b);
    }
  }

  /** A single emission writes a single line. */
  lemma LinesSingle(indent: nat, names: NameTable, e: Emission)
    ensures Lines(indent, names, [e]).Ok? <==> Line(indent, names, e).Ok?
    ensures Line(indent, names, e).Ok? ==> Lines(indent, names, [e]).value == [Line(indent, names, e).value]
  {
    assert [e][0] == e && [e][1..] == [];
  }

  /** One line per emission, in order: line `i` is what emission `i` renders to. */
  lemma {:induction false} LinesOneEach(indent: nat, names: NameTable, es: seq<Emission>)
    ensures Lines(indent, names, es).Ok? <==> forall i | 0 <= i < |es| :: Line(indent, names, es[i]).Ok?
    ensures Lines(indent, names, es).Ok? ==>
      |Lines(indent, names, es).value| == |es| &&
      forall i | 0 <= i < |es| :: Lines(indent, names, es).value[i] == Line(indent, names, es[i]).value
    decreases |es|
  {
    if es != [] {
      LinesOneEach(indent, names, es[1..]);
      assert forall i | 1 <= i < |es| :: es[i] == es[1..][i - 1];
    }
  }

  /** Emissions whose lines are known one by one write exactly those lines. */
  lemma {:induction false} LinesFromEach(indent: nat, names: NameTable, es: seq<Emission>, ls: seq<string>)
    requires |es| == |ls|
    requires forall i | 0 <= i < |es| :: Line(indent, names, es[i]) == Ok(ls[i])
    ensures Lines(indent, names, es) == Ok(ls)
    decreases |es|
  {
    if es != [] {
      assert forall i | 0 <= i < |es| - 1 :: es[1..][i] == es[i + 1] && ls[1..][i] == ls[i + 1];
      LinesFromEach(indent, names, es[1..], ls[1..]);
      assert [ls[0]] + ls[1..] == ls;
    }
  }

  /** Neither the template nor any name holds a newline, so the rendered text is a single line. */
  lemma {:induction false} RenderSingleLine(names: NameTable, t: string, ops: seq<Operand>)
    requires '\n' !in t
    requires forall i | 0 <= i < |names| :: '\n' !in names[i]
    requires Render(names, t, ops).Ok?
    ensures '\n' !in Render(names, t, ops).value
    decreases |t|
  {
    if t != [] {
      if t[0] == '%' {
        RenderSingleLine(names, t[1..], ops[1..]);
      } else if t[0] == '&' {
        DecimalCharacters(ops[0].n);
        RenderSingleLine(names, t[1..], ops[1..]);
      } else {
        RenderSingleLine(names, t[1..], ops);
      }
    }
  }

  /** The line of a template `m % &`, such as "set % &" or "#def % &". */
  lemma LineRegInt(indent: nat, names: NameTable, m: string, s: nat, k: int)
    requires NoHoles(m) && s < SlotCount
    ensures Line(indent, names, Emission(m + " % &", [RegOp(s), IntOp(k)]))
         == Ok(Spaces(indent) + m + " " + Name(names, s).value + " " + Decimal(k))
  {
    var n, d := Name(names, s).value, Decimal(k);
    assert NoHoles(m + " ");
    assert m + " % &" == (m + " ") + ("%" + (" " + ("&" + "")));
    assert [RegOp(s), IntOp(k)] == [RegOp(s)] + ([IntOp(k)] + []);
    RenderIntHole(names, "", k, []);
    assert Render(names, "&" + "", [IntOp(k)] + []) == Ok(d + "");
    RenderVerbatim(names, " ", "&" + "", [IntOp(k)] + []);
    RenderRegHole(names, " " + ("&" + ""), s, [IntOp(k)] + []);
    assert Render(names, "%" + (" " + ("&" + "")), [RegOp(s)] + ([IntOp(k)] + [])) == Ok(n + (" " + (d + "")));
    RenderVerbatim(names, m + " ", "%" + (" " + ("&" + "")), [RegOp(s)] + ([IntOp(k)] + []));
    Regroup5(Spaces(indent), m, " ", n, " ", d);
  }

  /** The line of a template `m % %`, such as "set % %", "load % %" or "add % %". */
  lemma LineRegReg(indent: nat, names: NameTable, m: string, s: nat, t: nat)
    requires NoHoles(m) && s < SlotCount && t < SlotCount
    ensures Line(indent, names, Emission(m + " % %", [RegOp(s), RegOp(t)]))
         == Ok(Spaces(indent) + m + " " + Name(names, s).value + " " + Name(names, t).value)
  {
    var n, n' := Name(names, s).value, Name(names, t).value;
    assert NoHoles(m + " ");
    assert m + " % %" == (m + " ") + ("%" + (" " + ("%" + "")));
    assert [RegOp(s), RegOp(t)] == [RegOp(s)] + ([RegOp(t)] + []);
    RenderRegHole(names, "", t, []);
    assert Render(names, "%" + "", [RegOp(t)] + []) == Ok(n' + "");
    RenderVerbatim(names, " ", "%" + "", [RegOp(t)] + []);
    RenderRegHole(names, " " + ("%" + ""), s, [RegOp(t)] + []);
    assert Render(names, "%" + (" " + ("%" + "")), [RegOp(s)] + ([RegOp(t)] + [])) == Ok(n + (" " + (n' + "")));
    RenderVerbatim(names, m + " ", "%" + (" " + ("%" + "")), [RegOp(s)] + ([RegOp(t)] + []));
    Regroup5(Spaces(indent), m, " ", n, " ", n');
  }

  /** The line of a template `m %`, such as "neg %" or "#putc %". */
  lemma LineReg(indent: nat, names: NameTable, m: string, s: nat)
    requires NoHoles(m) && s < SlotCount
    ensures Line(indent, names, Emission(m + " %", [RegOp(s)]))
         == Ok(Spaces(indent) + m + " " + Name(names, s).value)
  {
    var n := Name(names, s).value;
    assert NoHoles(m + " ");
    assert m + " %" == (m + " ") + ("%" + "");
    assert [RegOp(s)] == [RegOp(s)] + [];
    RenderRegHole(names, "", s, []);
    assert Render(names, "%" + "", [RegOp(s)] + []) == Ok(n + "");
    RenderVerbatim(names, m + " ", "%" + "", [RegOp(s)] + []);
    assert n + "" == n;
    AppendAssoc(Spaces(indent), m + " ", n);
    AppendAssoc(Spaces(indent), m, " ");
  }

  /** A template without placeholders, such as "halt", "; na" or "", is written as it is. */
  lemma LinePlain(indent: nat, names: NameTable, m: string)
    requires NoHoles(m)
    ensures Line(indent, names, Emission(m, [])) == Ok(Spaces(indent) + m)
  {
    assert m == m + "";
    RenderVerbatim(names, m, "", []);
  }
}

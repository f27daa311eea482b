/** What the reader of textual bytecode accepts: nothing but printed functions, up to
    the spelling of string constants. */
module BytecodeGrammar {
  import opened Basics
  import opened Bytecode
  import opened BytecodeText

  /** A token as the printer spells it. */
  function Respelled(t: Token): Token {
    match t
    case Str(raw) => Str(Unescape(Escape(raw)))
    case Op(code) => if HasOperand(code) then Op(Build(code, 0)) else t
    case _ => t
  }

  function Rewritten(ts: seq<Token>): (r: seq<Token>)
    ensures |r| == |ts| && forall i :: 0 <= i < |ts| ==> r[i] == Respelled(ts[i])
  {
    seq(|ts|, i requires 0 <= i < |ts| => Respelled(ts[i]))
  }

  lemma {:induction false} RewrittenHead(ts: seq<Token>)
    requires ts != []
    ensures Rewritten(ts) == [Respelled(ts[0])] + Rewritten(ts[1..])
  {
    hide Respelled;
  }

  ghost predicate Plain(wanted: seq<Token>) {
    forall t :: t in wanted ==> t.Word? || t.Punct?
  }

  lemma {:induction false} ExpectedRead(ts: seq<Token>, wanted: seq<Token>, rest: seq<Token>)
    requires ExpectAll(ts, wanted) == Some(rest) && Plain(wanted)
    ensures Rewritten(ts) == wanted + Rewritten(rest)
    decreases |wanted|
  {
    hide Rewritten;
    if wanted == [] {
      assert wanted + Rewritten(rest) == Rewritten(rest);
    } else {
      assert wanted[0] in wanted && Respelled(wanted[0]) == wanted[0];
      RewrittenHead(ts);
      ExpectedRead(ts[1..], wanted[1..], rest);
      assert wanted == [wanted[0]] + wanted[1..];
    }
  }

  lemma {:induction false} OneRead(ts: seq<Token>, t: Token, rest: seq<Token>)
    requires Expect(ts, t) == Some(rest) && (t.Word? || t.Punct?)
    ensures Rewritten(ts) == [t] + Rewritten(rest)
  {
    RewrittenHead(ts);
  }

  // ---------------------------------------------------------------- lists

  lemma {:induction false} ConstantAccepted(ts: seq<Token>, c: Constant, rest: seq<Token>)
    requires ParseConstant(ts) == Some((c, rest))
    ensures Rewritten(ts) == PrintConstant(c) + Rewritten(rest) && |rest| < |ts|
  {
    hide Rewritten, Unescape, Escape;
    RewrittenHead(ts);
  }

  lemma {:induction false} ConstantsPlusAccepted(ts: seq<Token>, cs: seq<Constant>, rest: seq<Token>)
    requires ParseConstantsPlus(ts) == Some((cs, rest))
    ensures cs != [] && Rewritten(ts) == PrintConstants(cs) + Rewritten(rest)
    decreases |ts|
  {
    hide ParseConstant, PrintConstant, Rewritten;
    var (c, t1) := ParseConstant(ts).value;
    ConstantAccepted(ts, c, t1);
    if t1 != [] && t1[0] == Punct(',') {
      RewrittenHead(t1);
      ConstantsPlusAccepted(t1[1..], cs[1..], rest);
      assert cs[0] == c;
      assert Rewritten(ts) == PrintConstant(c) + [Punct(',')] + PrintConstants(cs[1..]) + Rewritten(rest);
    } else {
      assert cs == [c];
    }
  }

  lemma {:induction false} ConstantsAccepted(ts: seq<Token>, cs: seq<Constant>, rest: seq<Token>)
    requires ParseConstants(ts) == Some((cs, rest))
    ensures Rewritten(ts) == PrintConstants(cs) + Rewritten(rest)
  {
    hide ParseConstantsPlus, Rewritten;
    if ts != [] && ts[0] == Punct(']') {
      assert PrintConstants(cs) + Rewritten(rest) == Rewritten(rest);
    } else {
      ConstantsPlusAccepted(ts, cs, rest);
    }
  }

  lemma {:induction false} NamesPlusAccepted(ts: seq<Token>, xs: seq<string>, rest: seq<Token>)
    requires ParseNamesPlus(ts) == Some((xs, rest))
    ensures xs != [] && NoKeyword(xs) && Rewritten(ts) == PrintNames(xs) + Rewritten(rest)
    decreases |ts|
  {
    hide KEYWORDS, Rewritten;
    RewrittenHead(ts);
    if |ts| > 1 && ts[1] == Punct(',') {
      RewrittenHead(ts[1..]);
      assert ts[1..][1..] == ts[2..];
      NamesPlusAccepted(ts[2..], xs[1..], rest);
      assert xs == [xs[0]] + xs[1..];
      NoKeywordParts(xs[0], xs[1..]);
      assert Rewritten(ts) == [Word(xs[0]), Punct(',')] + PrintNames(xs[1..]) + Rewritten(rest);
    } else {
      assert xs == [ts[0].text];
    }
  }

  lemma {:induction false} NamesAccepted(ts: seq<Token>, xs: seq<string>, rest: seq<Token>)
    requires ParseNames(ts) == Some((xs, rest))
    ensures NoKeyword(xs) && Rewritten(ts) == PrintNames(xs) + Rewritten(rest)
  {
    hide ParseNamesPlus, Rewritten, KEYWORDS;
    if ts != [] && ts[0] == Punct(']') {
      assert PrintNames(xs) + Rewritten(rest) == Rewritten(rest);
    } else {
      NamesPlusAccepted(ts, xs, rest);
    }
  }

  lemma {:induction false} Built(code: Instruction, n: int)
    requires HasOperand(code) && (Signed(code) || n >= 0)
    ensures var i := Build(code, n); HasOperand(i) && Operand(i) == n && Build(i, 0) == Build(code, 0) && Encodable(i)
  {}

  lemma {:induction false} OperationRespelled(code: Instruction)
    ensures Respelled(Op(code)) == if HasOperand(code) then Op(Build(code, 0)) else Op(code)
  {
    hide Build, HasOperand;
  }

  lemma {:induction false} NumberRespelled(n: int)
    ensures Respelled(Num(n)) == Num(n)
  {}

  lemma {:induction false} InstructionAccepted(ts: seq<Token>, i: Instruction, rest: seq<Token>)
    requires ParseInstruction(ts) == Some((i, rest))
    ensures Encodable(i) && Rewritten(ts) == PrintInstruction(i) + Rewritten(rest)
  {
    hide Build, Operand, HasOperand, Rewritten, Respelled;
    RewrittenHead(ts);
    OperationRespelled(ts[0].code);
    if HasOperand(ts[0].code) {
      NumberRespelled(ts[1].n);
      Built(ts[0].code, ts[1].n);
      RewrittenHead(ts[1..]);
      assert ts[1..][1..] == ts[2..];
    }
  }

  lemma {:induction false} InstructionsAccepted(ts: seq<Token>, code: seq<Instruction>, rest: seq<Token>)
    requires ParseInstructions(ts) == Some((code, rest))
    ensures (forall i :: 0 <= i < |code| ==> Encodable(code[i])) && Rewritten(ts) == PrintInstructions(code) + Rewritten(rest)
    decreases |ts|
  {
    hide ParseInstruction, PrintInstruction, Encodable, Rewritten;
    if ts != [] && ts[0] == Punct(']') {
      assert PrintInstructions(code) + Rewritten(rest) == Rewritten(rest);
    } else {
      var (i, t1) := ParseInstruction(ts).value;
      InstructionAccepted(ts, i, t1);
      InstructionsAccepted(t1, code[1..], rest);
      assert code == [i] + code[1..];
      assert Rewritten(ts) == PrintInstruction(i) + PrintInstructions(code[1..]) + Rewritten(rest);
    }
  }

  // ---------------------------------------------------------------- fields

  lemma {:induction false} NamesFieldAccepted(name: string, ts: seq<Token>, xs: seq<string>, rest: seq<Token>)
    requires ParseNamesField(name, ts) == Some((xs, rest))
    ensures NoKeyword(xs) && Rewritten(ts) == Field(name, PrintNames(xs)) + Rewritten(rest)
  {
    hide ParseNames, PrintNames, NoKeyword, ExpectAll, Rewritten;
    var inside := ExpectAll(ts, Open(name)).value;
    var t1 := ParseNames(inside).value.1;
    ExpectedRead(ts, Open(name), inside);
    NamesAccepted(inside, xs, t1);
    ExpectedRead(t1, CLOSE, rest);
  }

  lemma {:induction false} ConstantsFieldAccepted(ts: seq<Token>, cs: seq<Constant>, rest: seq<Token>)
    requires ParseConstantsField(ts) == Some((cs, rest))
    ensures Rewritten(ts) == Field("constants", PrintConstants(cs)) + Rewritten(rest)
  {
    hide ParseConstants, PrintConstants, ExpectAll, Rewritten;
    var inside := ExpectAll(ts, Open("constants")).value;
    var t1 := ParseConstants(inside).value.1;
    ExpectedRead(ts, Open("constants"), inside);
    ConstantsAccepted(inside, cs, t1);
    ExpectedRead(t1, CLOSE, rest);
  }

  lemma {:induction false} CountAccepted(ts: seq<Token>, n: nat, rest: seq<Token>)
    requires ParseCount(ts) == Some((n, rest))
    ensures Rewritten(ts) == Count(n) + Rewritten(rest)
  {}

  lemma {:induction false} InstructionsFieldAccepted(ts: seq<Token>, code: seq<Instruction>, rest: seq<Token>)
    requires ParseInstructionsField(ts) == Some((code, rest))
    ensures forall i :: 0 <= i < |code| ==> Encodable(code[i])
    ensures Rewritten(ts) == Listed("instructions", PrintInstructions(code)) + Rewritten(rest)
  {
    hide ParseInstructions, PrintInstructions, ExpectAll, Encodable, Rewritten;
    var inside := ExpectAll(ts, Open("instructions")).value;
    var t1 := ParseInstructions(inside).value.1;
    ExpectedRead(ts, Open("instructions"), inside);
    InstructionsAccepted(inside, code, t1);
    OneRead(t1, Punct(']'), rest);
  }

  lemma {:induction false} TailAccepted(functions: seq<Text>, ts: seq<Token>, t: Text, rest: seq<Token>)
    requires ParseTail(functions, ts) == Some((t, rest))
    ensures t.functions == functions && forall i :: 0 <= i < |t.instructions| ==> Encodable(t.instructions[i])
    ensures NoKeyword(t.localVars) && NoKeyword(t.localReferenceVars) && NoKeyword(t.freeVars) && NoKeyword(t.names)
    ensures Rewritten(ts) == PrintTail(t) + Rewritten(rest)
  {
    hide ParseConstantsField, ParseNamesField, ParseInstructionsField, ParseCount, Field, Listed, Count, NoKeyword, PrintNames,
      PrintConstants, PrintInstructions, Encodable, Rewritten;
    var t1 := ParseConstantsField(ts).value.1;
    var t2 := ParseCount(t1).value.1;
    var t3 := ParseNamesField("local_vars", t2).value.1;
    var t4 := ParseNamesField("local_ref_vars", t3).value.1;
    var t5 := ParseNamesField("free_vars", t4).value.1;
    var t6 := ParseNamesField("names", t5).value.1;
    ConstantsFieldAccepted(ts, t.constants, t1);
    CountAccepted(t1, t.parameterCount, t2);
    NamesFieldAccepted("local_vars", t2, t.localVars, t3);
    NamesFieldAccepted("local_ref_vars", t3, t.localReferenceVars, t4);
    NamesFieldAccepted("free_vars", t4, t.freeVars, t5);
    NamesFieldAccepted("names", t5, t.names, t6);
    InstructionsFieldAccepted(t6, t.instructions, rest);
  }

  // ---------------------------------------------------------------- functions

  ghost predicate Accepts(t: Text) { Printable(t) && Readable(t) }

  lemma {:induction false} FieldIs(name: string, inside: seq<Token>)
    ensures Field(name, inside) == Open(name) + inside + CLOSE
  {}

  lemma {:induction false} AllAccepted(t: Text)
    requires forall i :: 0 <= i < |t.instructions| ==> Encodable(t.instructions[i])
    requires NoKeyword(t.localVars) && NoKeyword(t.localReferenceVars) && NoKeyword(t.freeVars) && NoKeyword(t.names)
    requires forall i :: 0 <= i < |t.functions| ==> Accepts(t.functions[i])
    ensures Accepts(t)
  {
    hide NoKeyword, Encodable;
    forall i | 0 <= i < |t.functions| ensures Printable(t.functions[i]) && Readable(t.functions[i]) {
      assert Accepts(t.functions[i]);
    }
  }

  /** Whatever is read is, its constants respelled, the printed form of what was read. */
  lemma {:induction false} FunctionAccepted(ts: seq<Token>, t: Text, rest: seq<Token>)
    requires ParseFunction(ts) == Some((t, rest))
    ensures Accepts(t) && Rewritten(ts) == FunctionTokens(t) + Rewritten(rest)
    decreases |ts|, 0
  {
    hide ParseTail, PrintTail, ParseFunctions, PrintFunctions, ExpectAll, NoKeyword, Encodable, Rewritten, Field, Accepts;
    var opening := [Word("function"), Punct('{')] + Open("functions");
    var inside := ExpectAll(ts, opening).value;
    var (functions, t1) := ParseFunctions(inside).value;
    var t0 := ExpectAll(t1, CLOSE).value;
    var t2 := ParseTail(functions, t0).value.1;
    ExpectedRead(ts, opening, inside);
    FunctionsAccepted(inside, functions, t1);
    ExpectedRead(t1, CLOSE, t0);
    TailAccepted(functions, t0, t, t2);
    OneRead(t2, Punct('}'), rest);
    FieldIs("functions", PrintFunctions(functions));
    AllAccepted(t);
  }

  lemma {:induction false} FunctionsAccepted(ts: seq<Token>, fs: seq<Text>, rest: seq<Token>)
    requires ParseFunctions(ts) == Some((fs, rest))
    ensures (forall i :: 0 <= i < |fs| ==> Accepts(fs[i])) && Rewritten(ts) == PrintFunctions(fs) + Rewritten(rest)
    decreases |ts|, 2
  {
    hide ParseFunctionsPlus, Rewritten, Accepts;
    if ts != [] && ts[0] == Punct(']') {
      assert PrintFunctions(fs) + Rewritten(rest) == Rewritten(rest);
    } else {
      FunctionsPlusAccepted(ts, fs, rest);
    }
  }

  lemma {:induction false} FunctionsPlusAccepted(ts: seq<Token>, fs: seq<Text>, rest: seq<Token>)
    requires ParseFunctionsPlus(ts) == Some((fs, rest))
    ensures fs != [] && (forall i :: 0 <= i < |fs| ==> Accepts(fs[i])) && Rewritten(ts) == PrintFunctions(fs) + Rewritten(rest)
    decreases |ts|, 1
  {
    hide ParseFunction, FunctionTokens, Rewritten, Accepts;
    var (f, t1) := ParseFunction(ts).value;
    FunctionAccepted(ts, f, t1);
    if t1 != [] && t1[0] == Punct(',') && |t1| < |ts| {
      RewrittenHead(t1);
      FunctionsPlusAccepted(t1[1..], fs[1..], rest);
      assert fs == [f] + fs[1..];
      assert Rewritten(ts) == FunctionTokens(f) + [Punct(',')] + PrintFunctions(fs[1..]) + Rewritten(rest);
    } else {
      assert fs == [f];
    }
  }

  /** Printing what was read gives the text back exactly when its constants are spelled
      as the printer spells them. */
  lemma {:induction false} ReadThenPrinted(ts: seq<Token>, t: Text)
    requires ParseFunction(ts) == Some((t, []))
    ensures FunctionTokens(t) == ts <==> Rewritten(ts) == ts
  {
    hide ParseFunction, FunctionTokens, Rewritten;
    FunctionAccepted(ts, t, []);
    assert Rewritten([]) == [];
    assert FunctionTokens(t) + [] == FunctionTokens(t);
  }
}

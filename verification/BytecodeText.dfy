/** The textual form of bytecode: the printer's token stream, the grammar that
    reads it back, and the escapes of string constants. */
module BytecodeText {
  import opened Basics
  import opened Bytecode

  // ---------------------------------------------------------------- escapes

  /** `unescape`: the printed form of a string constant. */
  function Unescape(s: string): string {
    if s == "" then ""
    else UnescapeOne(s[0]) + Unescape(s[1..])
  }

  function UnescapeOne(c: char): string {
    if c == '\n' then "\\n"
    else if c == '\t' then "\\t"
    else if c == '"' then "\\\""
    else if c == '\\' then "\\\\"
    else [c]
  }

  /** `escape`: what the lexer reads. An unknown escape stands for a backslash, a
      backslash at the very end for itself. */
  function Escape(s: string): string {
    if s == "" then ""
    else if s[0] == '\\' && |s| > 1 then [EscapeOne(s[1])] + Escape(s[2..])
    else [s[0]] + Escape(s[1..])
  }

  function EscapeOne(c: char): char {
    if c == 'n' then '\n'
    else if c == 't' then '\t'
    else if c == '"' then '"'
    else '\\'
  }

  /** Every string constant survives printing and reading. */
  lemma {:induction false} EscapeUnescape(s: string)
    ensures Escape(Unescape(s)) == s
  {
    if s != "" {
      var head, rest := UnescapeOne(s[0]), Unescape(s[1..]);
      EscapeUnescape(s[1..]);
      assert (head + rest)[|head|..] == rest;
      assert s == [s[0]] + s[1..];
    }
  }

  /** Written as the printer writes it: no raw newline, tab or quote, and every
      backslash starts one of the four escapes. */
  predicate Canonical(s: string) {
    if s == "" then true
    else if s[0] == '\\' then |s| > 1 && s[1] in {'n', 't', '"', '\\'} && Canonical(s[2..])
    else s[0] !in {'\n', '\t', '"'} && Canonical(s[1..])
  }

  /** What the lexer takes for the text of a string constant. */
  predicate Lexed(s: string) {
    if s == "" then true
    else if s[0] == '\\' then |s| > 1 && s[1] in {'n', 't', '"', '\\'} && Lexed(s[2..])
    else s[0] !in {'\n', '"'} && Lexed(s[1..])
  }

  lemma {:induction false} SameHead(a: string, b: string, c: string, n: nat)
    requires n <= |c| && |a| == n
    ensures a + b == c <==> a == c[..n] && b == c[n..]
  {
    assert (a + b)[..n] == a && (a + b)[n..] == b;
    assert c == c[..n] + c[n..];
  }

  /** An escape is written back as it was exactly when it is one of the four. */
  lemma {:induction false} EscapeBack(c: char)
    ensures |UnescapeOne(EscapeOne(c))| == 2
    ensures UnescapeOne(EscapeOne(c)) == ['\\', c] <==> c in {'n', 't', '"', '\\'}
  {}

  /** A plain character is written back as itself, any other with a backslash first. */
  lemma {:induction false} PlainBack(c: char)
    ensures c in {'\n', '\t', '"', '\\'} ==> |UnescapeOne(c)| == 2 && UnescapeOne(c)[0] == '\\'
    ensures c !in {'\n', '\t', '"', '\\'} ==> UnescapeOne(c) == [c]
  {}

  lemma {:induction false} ReadThenWritten(s: string)
    requires s != ""
    ensures s[0] == '\\' && |s| > 1 ==> Unescape(Escape(s)) == UnescapeOne(EscapeOne(s[1])) + Unescape(Escape(s[2..]))
    ensures s[0] != '\\' || |s| == 1 ==> Unescape(Escape(s)) == UnescapeOne(s[0]) + Unescape(Escape(s[1..]))
  {
    hide UnescapeOne, EscapeOne;
    var n := if s[0] == '\\' && |s| > 1 then 2 else 1;
    var c, rest := if n == 2 then EscapeOne(s[1]) else s[0], Escape(s[n..]);
    assert Escape(s) == [c] + rest && ([c] + rest)[1..] == rest;
  }

  /** The other order, reading and printing, is the identity exactly on what the
      printer writes. */
  lemma {:induction false} UnescapeEscape(s: string)
    ensures Unescape(Escape(s)) == s <==> Canonical(s)
    decreases |s|
  {
    hide Unescape, Escape, UnescapeOne, EscapeOne;
    if s == "" {
      EscapeNothing();
    } else {
      ReadThenWritten(s);
      if s[0] == '\\' && |s| > 1 {
        var head := UnescapeOne(EscapeOne(s[1]));
        EscapeBack(s[1]);
        UnescapeEscape(s[2..]);
        SameHead(head, Unescape(Escape(s[2..])), s, 2);
        assert s[..2] == ['\\', s[1]];
      } else {
        var head, rest := UnescapeOne(s[0]), Unescape(Escape(s[1..]));
        PlainBack(s[0]);
        UnescapeEscape(s[1..]);
        if |head| == 1 {
          SameHead(head, rest, s, 1);
          assert s[..1] == [s[0]];
        } else {
          assert (head + rest)[0] == head[0] && |head + rest| > 1;
        }
      }
    }
  }

  /** Of the constants the lexer lets through, just those with a raw tab change. */
  lemma {:induction false} OnlyRawTabsChange(s: string)
    requires Lexed(s)
    ensures Unescape(Escape(s)) == s <==> '\t' !in s
  {
    hide Unescape, Escape;
    UnescapeEscape(s);
    LexedIsCanonical(s);
  }

  lemma {:induction false} LexedIsCanonical(s: string)
    requires Lexed(s)
    ensures Canonical(s) <==> '\t' !in s
  {
    if s != "" {
      var n := if s[0] == '\\' then 2 else 1;
      LexedIsCanonical(s[n..]);
      assert '\t' in s <==> '\t' in s[..n] || '\t' in s[n..] by { assert s == s[..n] + s[n..]; }
    }
  }

  /** A raw tab is accepted and comes back as an escape. */
  lemma {:induction false} RawTabIsRewritten()
    ensures Lexed("\t") && Unescape(Escape("\t")) == "\\t"
  {
    assert Escape("\t") == ['\t'] + Escape("\t"[1..]);
    assert Unescape("\t") == UnescapeOne('\t') + Unescape("\t"[1..]);
  }

  /** One round of the switch. */
  method UnescapeChar(c: char) returns (piece: string)
    ensures piece == UnescapeOne(c)
  {
    match c
    case '\n' => piece := "\\n";
    case '\t' => piece := "\\t";
    case '"' => piece := "\\\"";
    case '\\' => piece := "\\\\";
    case _ => piece := [c];
  }

  method UnescapeLoop(str: string) returns (ret: string)
    ensures ret == Unescape(str)
  {
    hide UnescapeOne;
    ret := "";
    assert str[0..] == str;
    for i := 0 to |str|
      invariant Unescape(str) == ret + Unescape(str[i..])
    {
      assert str[i..][0] == str[i] && str[i..][1..] == str[i + 1..];
      var piece := UnescapeChar(str[i]);
      assert ret + (piece + Unescape(str[i + 1..])) == (ret + piece) + Unescape(str[i + 1..]);
      ret := ret + piece;
    }
  }

  lemma {:induction false} EscapeStep(s: string, i: nat)
    requires i < |s|
    ensures s[i] == '\\' && i + 1 < |s| ==> Escape(s[i..]) == [EscapeOne(s[i + 1])] + Escape(s[i + 2..])
    ensures !(s[i] == '\\' && i + 1 < |s|) ==> Escape(s[i..]) == [s[i]] + Escape(s[i + 1..])
  {
    assert s[i..][1..] == s[i + 1..];
    if i + 1 < |s| { assert s[i..][2..] == s[i + 2..]; }
  }

  method EscapeLoop(str: string) returns (ret: string)
    ensures ret == Escape(str)
  {
    hide Escape;
    ret := "";
    var it := 0;
    assert str[0..] == str;
    while it != |str|
      invariant it <= |str|
      invariant Escape(str) == ret + Escape(str[it..])
      decreases |str| - it
    {
      EscapeStep(str, it);
      var c := str[it];
      it := it + 1;
      if c == '\\' && it != |str| {
        match str[it] {
          case 'n' => c := '\n';
          case 't' => c := '\t';
          case '"' => c := '"';
          case '\\' => c := '\\';
          case _ =>
        }
        it := it + 1;
      }
      ret := ret + [c];
    }
    assert str[it..] == "";
    EscapeNothing();
  }

  lemma {:induction false} EscapeNothing()
    ensures Escape("") == "" && Unescape("") == ""
  {}

  // ---------------------------------------------------------------- tokens

  /** What the lexer hands on: a word (keyword or identifier), a mnemonic, a
      punctuation character, an integer, or the text between quotes. */
  datatype Token = Word(text: string) | Op(code: Instruction) | Punct(c: char) | Num(n: int) | Str(raw: string)

  const KEYWORDS: set<string> := {
    "None", "true", "false", "function", "functions", "constants", "parameter_count", "local_vars",
    "local_ref_vars", "names", "free_vars", "instructions", "load_const", "load_func", "load_local",
    "store_local", "load_global", "store_global", "push_ref", "load_ref", "store_ref", "alloc_record",
    "field_load", "field_store", "index_load", "index_store", "alloc_closure", "call", "return", "add",
    "sub", "mul", "div", "neg", "gt", "geq", "eq", "and", "or", "not", "goto", "if", "dup", "swap", "pop"}

  predicate IsIdent(t: Token) { t.Word? && t.text !in KEYWORDS }

  /** The eight fields the textual form has. */
  datatype Text = Text(
    functions: seq<Text>, constants: seq<Constant>, parameterCount: nat, localVars: seq<string>,
    localReferenceVars: seq<string>, freeVars: seq<string>, names: seq<string>, instructions: seq<Instruction>)

  // ---------------------------------------------------------------- instructions

  predicate HasOperand(i: Instruction) {
    || i.LoadConst? || i.LoadFunc? || i.LoadLocal? || i.StoreLocal? || i.LoadGlobal? || i.StoreGlobal?
    || i.PushReference? || i.FieldLoad? || i.FieldStore? || i.AllocClosure? || i.Call? || i.Goto? || i.If?
  }

  function Operand(i: Instruction): int
    requires HasOperand(i)
  {
    match i
    case LoadConst(n) => n case LoadFunc(n) => n case LoadLocal(n) => n case StoreLocal(n) => n
    case LoadGlobal(n) => n case StoreGlobal(n) => n case PushReference(n) => n
    case FieldLoad(n) => n case FieldStore(n) => n case AllocClosure(n) => n case Call(n) => n
    case Goto(n) => n case If(n) => n
  }

  /** The grammar's action: the operation of the mnemonic with the operand read. */
  function Build(code: Instruction, n: int): Instruction
    requires HasOperand(code)
  {
    match code
    case LoadConst(_) => LoadConst(n) case LoadFunc(_) => LoadFunc(n)
    case LoadLocal(_) => LoadLocal(n) case StoreLocal(_) => StoreLocal(n)
    case LoadGlobal(_) => LoadGlobal(n) case StoreGlobal(_) => StoreGlobal(n)
    case PushReference(_) => PushReference(n)
    case FieldLoad(_) => FieldLoad(n) case FieldStore(_) => FieldStore(n)
    case AllocClosure(_) => AllocClosure(n) case Call(_) => Call(n)
    case Goto(_) => Goto(n) case If(_) => If(n)
  }

  /** Jump offsets are read with the signed cast, everything else must not be negative. */
  predicate Signed(code: Instruction) { code.Goto? || code.If? }

  // ---------------------------------------------------------------- printer

  function PrintConstant(c: Constant): seq<Token> {
    match c
    case NoneC => [Word("None")]
    case BooleanC(b) => [Word(if b then "true" else "false")]
    case IntegerC(i) => [Num(i)]
    case StringC(t) => [Str(Unescape(t))]
  }

  function PrintConstants(cs: seq<Constant>): seq<Token> {
    if cs == [] then []
    else if |cs| == 1 then PrintConstant(cs[0])
    else PrintConstant(cs[0]) + [Punct(',')] + PrintConstants(cs[1..])
  }

  function PrintNames(xs: seq<string>): seq<Token> {
    if xs == [] then []
    else if |xs| == 1 then [Word(xs[0])]
    else [Word(xs[0]), Punct(',')] + PrintNames(xs[1..])
  }

  function PrintInstruction(i: Instruction): seq<Token> {
    if HasOperand(i) then [Op(Build(i, 0)), Num(Operand(i))] else [Op(i)]
  }

  function PrintInstructions(code: seq<Instruction>): seq<Token> {
    if code == [] then [] else PrintInstruction(code[0]) + PrintInstructions(code[1..])
  }

  /** `name = [ ... ]`. */
  function Listed(name: string, inside: seq<Token>): seq<Token> {
    [Word(name), Punct('='), Punct('[')] + inside + [Punct(']')]
  }

  /** `name = [ ... ],`. */
  function Field(name: string, inside: seq<Token>): seq<Token> {
    Listed(name, inside) + [Punct(',')]
  }

  function Count(n: nat): seq<Token> {
    [Word("parameter_count"), Punct('='), Num(n), Punct(',')]
  }

  function FunctionTokens(t: Text): seq<Token>
    decreases t, 1
  {
    [Word("function"), Punct('{')] + Field("functions", PrintFunctions(t.functions)) + PrintTail(t) + [Punct('}')]
  }

  /** The fields after the nested functions. */
  function PrintTail(t: Text): seq<Token> {
    Field("constants", PrintConstants(t.constants))
    + (Count(t.parameterCount) + (Field("local_vars", PrintNames(t.localVars))
    + (Field("local_ref_vars", PrintNames(t.localReferenceVars)) + (Field("free_vars", PrintNames(t.freeVars))
    + (Field("names", PrintNames(t.names)) + Listed("instructions", PrintInstructions(t.instructions)))))))
  }

  function PrintFunctions(ts: seq<Text>): seq<Token>
    decreases ts, 0
  {
    if ts == [] then []
    else if |ts| == 1 then FunctionTokens(ts[0])
    else FunctionTokens(ts[0]) + [Punct(',')] + PrintFunctions(ts[1..])
  }

  // ---------------------------------------------------------------- grammar

  /** A value read and the tokens left, or a syntax error. */
  type Parsed<T> = Option<(T, seq<Token>)>

  function Expect(ts: seq<Token>, t: Token): Option<seq<Token>> {
    if ts != [] && ts[0] == t then Some(ts[1..]) else None
  }

  function ExpectAll(ts: seq<Token>, wanted: seq<Token>): (r: Option<seq<Token>>)
    ensures r.Some? ==> |r.value| + |wanted| == |ts|
  {
    if wanted == [] then Some(ts)
    else if ts != [] && ts[0] == wanted[0] then ExpectAll(ts[1..], wanted[1..])
    else None
  }

  function ParseConstant(ts: seq<Token>): Parsed<Constant> {
    if ts == [] then None
    else
      match ts[0]
      case Word(w) =>
        if w == "None" then Some((NoneC, ts[1..]))
        else if w == "true" then Some((BooleanC(true), ts[1..]))
        else if w == "false" then Some((BooleanC(false), ts[1..]))
        else None
      case Num(n) => Some((IntegerC(n), ts[1..]))
      case Str(raw) => Some((StringC(Escape(raw)), ts[1..]))
      case Punct(_) => None
      case Op(_) => None
  }

  /** `ConstantListPlus`. */
  function ParseConstantsPlus(ts: seq<Token>): (r: Parsed<seq<Constant>>)
    decreases |ts|
  {
    match ParseConstant(ts)
    case None => None
    case Some((c, rest)) =>
      if |rest| < |ts| && rest != [] && rest[0] == Punct(',') then
        match ParseConstantsPlus(rest[1..])
        case None => None
        case Some((cs, rest')) => Some(([c] + cs, rest'))
      else Some(([c], rest))
  }

  /** `ConstantListStar`: empty exactly when the closing bracket follows. */
  function ParseConstants(ts: seq<Token>): Parsed<seq<Constant>> {
    if ts != [] && ts[0] == Punct(']') then Some(([], ts)) else ParseConstantsPlus(ts)
  }

  function ParseNamesPlus(ts: seq<Token>): Parsed<seq<string>>
    decreases |ts|
  {
    if ts == [] || !IsIdent(ts[0]) then None
    else if |ts| > 1 && ts[1] == Punct(',') then
      match ParseNamesPlus(ts[2..])
      case None => None
      case Some((xs, rest)) => Some(([ts[0].text] + xs, rest))
    else Some(([ts[0].text], ts[1..]))
  }

  function ParseNames(ts: seq<Token>): Parsed<seq<string>> {
    if ts != [] && ts[0] == Punct(']') then Some(([], ts)) else ParseNamesPlus(ts)
  }

  function ParseInstruction(ts: seq<Token>): Parsed<Instruction> {
    if ts == [] || !ts[0].Op? || ts[0].code.PushNamed? then None
    else if !HasOperand(ts[0].code) then Some((ts[0].code, ts[1..]))
    else if |ts| > 1 && ts[1].Num? && (Signed(ts[0].code) || ts[1].n >= 0) then
      Some((Build(ts[0].code, ts[1].n), ts[2..]))
    else None
  }

  function ParseInstructions(ts: seq<Token>): Parsed<seq<Instruction>>
    decreases |ts|
  {
    if ts != [] && ts[0] == Punct(']') then Some(([], ts))
    else
      match ParseInstruction(ts)
      case None => None
      case Some((i, rest)) =>
        if |rest| >= |ts| then None
        else
          match ParseInstructions(rest)
          case None => None
          case Some((code, rest')) => Some(([i] + code, rest'))
  }

  // ---------------------------------------------------------------- lists survive

  lemma {:induction false} ConstantRead(c: Constant, rest: seq<Token>)
    ensures ParseConstant(PrintConstant(c) + rest) == Some((c, rest)) && PrintConstant(c) != []
  {
    if c.StringC? { EscapeUnescape(c.text); }
    assert (PrintConstant(c) + rest)[1..] == rest;
  }

  lemma {:induction false} ConstantsRead(cs: seq<Constant>, rest: seq<Token>)
    requires rest != [] && rest[0] == Punct(']')
    ensures ParseConstants(PrintConstants(cs) + rest) == Some((cs, rest))
    decreases |cs|
  {
    if cs == [] {
      assert PrintConstants(cs) + rest == rest;
    } else {
      ConstantsPlusRead(cs, rest);
      assert (PrintConstants(cs) + rest)[0] == PrintConstant(cs[0])[0];
    }
  }

  lemma {:induction false} ConstantsPlusRead(cs: seq<Constant>, rest: seq<Token>)
    requires cs != [] && rest != [] && rest[0] == Punct(']')
    ensures ParseConstantsPlus(PrintConstants(cs) + rest) == Some((cs, rest))
    decreases |cs|
  {
    hide ParseConstant, PrintConstant;
    if |cs| == 1 {
      ConstantRead(cs[0], rest);
      assert cs == [cs[0]];
    } else {
      var tail := PrintConstants(cs[1..]) + rest;
      assert PrintConstants(cs) + rest == PrintConstant(cs[0]) + ([Punct(',')] + tail);
      ConstantRead(cs[0], [Punct(',')] + tail);
      assert ([Punct(',')] + tail)[1..] == tail;
      ConstantsPlusRead(cs[1..], rest);
      assert cs == [cs[0]] + cs[1..];
    }
  }

  ghost predicate NoKeyword(xs: seq<string>) {
    forall i :: 0 <= i < |xs| ==> xs[i] !in KEYWORDS
  }

  /** A list of names reads back exactly when none of them is a keyword. */
  lemma {:induction false} NamesRead(xs: seq<string>, rest: seq<Token>)
    requires rest != [] && rest[0] == Punct(']')
    ensures ParseNames(PrintNames(xs) + rest) == if NoKeyword(xs) then Some((xs, rest)) else None
  {
    if xs == [] {
      assert PrintNames(xs) + rest == rest;
    } else {
      NamesPlusRead(xs, rest);
      assert (PrintNames(xs) + rest)[0] == Word(xs[0]);
    }
  }

  lemma {:induction false} NoKeywordParts(x: string, xs: seq<string>)
    ensures NoKeyword([x] + xs) <==> x !in KEYWORDS && NoKeyword(xs)
  {
    hide KEYWORDS;
    if NoKeyword([x] + xs) {
      assert ([x] + xs)[0] == x;
      forall i | 0 <= i < |xs| ensures xs[i] !in KEYWORDS { assert xs[i] == ([x] + xs)[i + 1]; }
    }
  }

  lemma {:induction false} NamesPlusRead(xs: seq<string>, rest: seq<Token>)
    requires xs != [] && rest != [] && rest[0] == Punct(']')
    ensures ParseNamesPlus(PrintNames(xs) + rest) == if NoKeyword(xs) then Some((xs, rest)) else None
    decreases |xs|
  {
    hide KEYWORDS;
    if |xs| == 1 {
      assert xs == [xs[0]] && (PrintNames(xs) + rest)[1..] == rest;
    } else {
      var tail := PrintNames(xs[1..]) + rest;
      assert PrintNames(xs) + rest == [Word(xs[0]), Punct(',')] + tail;
      assert ([Word(xs[0]), Punct(',')] + tail)[2..] == tail;
      NamesPlusRead(xs[1..], rest);
      assert xs == [xs[0]] + xs[1..];
      NoKeywordParts(xs[0], xs[1..]);
    }
  }

  // ---------------------------------------------------------------- instructions survive

  /** What the printer can print (an operand never patched has no value) and the
      casts accept. */
  predicate Encodable(i: Instruction) {
    !i.PushNamed? && (HasOperand(i) && !Signed(i) ==> Operand(i) >= 0)
  }

  lemma {:induction false} InstructionRead(i: Instruction, rest: seq<Token>)
    requires Encodable(i)
    ensures ParseInstruction(PrintInstruction(i) + rest) == Some((i, rest))
    ensures PrintInstruction(i) != [] && PrintInstruction(i)[0].Op?
  {
    var ts := PrintInstruction(i) + rest;
    assert |PrintInstruction(i)| == 1 ==> ts[1..] == rest;
    assert |PrintInstruction(i)| == 2 ==> ts[2..] == rest;
  }

  lemma {:induction false} FirstInstruction(code: seq<Instruction>, rest: seq<Token>)
    requires code != []
    ensures PrintInstructions(code) + rest == PrintInstruction(code[0]) + (PrintInstructions(code[1..]) + rest)
  {
    hide PrintInstruction;
  }

  lemma {:induction false} InstructionsRead(code: seq<Instruction>, rest: seq<Token>)
    requires rest != [] && rest[0] == Punct(']') && forall i :: 0 <= i < |code| ==> Encodable(code[i])
    ensures ParseInstructions(PrintInstructions(code) + rest) == Some((code, rest))
    decreases |code|
  {
    hide ParseInstruction, PrintInstruction, Encodable;
    if code == [] {
      assert PrintInstructions(code) + rest == rest;
    } else {
      var tail := PrintInstructions(code[1..]) + rest;
      FirstInstruction(code, rest);
      InstructionRead(code[0], tail);
      InstructionsRead(code[1..], rest);
      assert code == [code[0]] + code[1..];
    }
  }

  // ---------------------------------------------------------------- functions

  function Open(name: string): seq<Token> { [Word(name), Punct('='), Punct('[')] }

  const CLOSE: seq<Token> := [Punct(']'), Punct(',')]

  lemma {:induction false} Expected(wanted: seq<Token>, rest: seq<Token>)
    ensures ExpectAll(wanted + rest, wanted) == Some(rest)
    decreases |wanted|
  {
    if wanted == [] {
      assert wanted + rest == rest;
    } else {
      assert (wanted + rest)[1..] == wanted[1..] + rest;
      Expected(wanted[1..], rest);
    }
  }

  function ParseNamesField(name: string, ts: seq<Token>): (r: Parsed<seq<string>>) {
    match ExpectAll(ts, Open(name))
    case None => None
    case Some(inside) =>
      match ParseNames(inside)
      case None => None
      case Some((xs, rest)) =>
        match ExpectAll(rest, CLOSE)
        case None => None
        case Some(rest') => Some((xs, rest'))
  }

  lemma {:induction false} NamesFieldRead(name: string, xs: seq<string>, rest: seq<Token>)
    ensures ParseNamesField(name, Field(name, PrintNames(xs)) + rest) == if NoKeyword(xs) then Some((xs, rest)) else None
  {
    hide ParseNames, PrintNames, NoKeyword, ExpectAll;
    var inside := PrintNames(xs) + (CLOSE + rest);
    assert Field(name, PrintNames(xs)) + rest == Open(name) + inside;
    Expected(Open(name), inside);
    NamesRead(xs, CLOSE + rest);
    Expected(CLOSE, rest);
  }

  function ParseConstantsField(ts: seq<Token>): Parsed<seq<Constant>> {
    match ExpectAll(ts, Open("constants"))
    case None => None
    case Some(inside) =>
      match ParseConstants(inside)
      case None => None
      case Some((cs, rest)) =>
        match ExpectAll(rest, CLOSE)
        case None => None
        case Some(rest') => Some((cs, rest'))
  }

  lemma {:induction false} ConstantsFieldRead(cs: seq<Constant>, rest: seq<Token>)
    ensures ParseConstantsField(Field("constants", PrintConstants(cs)) + rest) == Some((cs, rest))
  {
    hide ParseConstants, PrintConstants, ExpectAll;
    var inside := PrintConstants(cs) + (CLOSE + rest);
    assert Field("constants", PrintConstants(cs)) + rest == Open("constants") + inside;
    Expected(Open("constants"), inside);
    ConstantsRead(cs, CLOSE + rest);
    Expected(CLOSE, rest);
  }

  function ParseCount(ts: seq<Token>): Parsed<nat> {
    if |ts| >= 4 && ts[0] == Word("parameter_count") && ts[1] == Punct('=') && ts[2].Num? && ts[2].n >= 0 && ts[3] == Punct(',')
    then Some((ts[2].n, ts[4..])) else None
  }

  /** The last field has no comma after it. */
  function ParseInstructionsField(ts: seq<Token>): Parsed<seq<Instruction>> {
    match ExpectAll(ts, Open("instructions"))
    case None => None
    case Some(inside) =>
      match ParseInstructions(inside)
      case None => None
      case Some((code, rest)) =>
        match Expect(rest, Punct(']'))
        case None => None
        case Some(rest') => Some((code, rest'))
  }

  lemma {:induction false} InstructionsFieldRead(code: seq<Instruction>, rest: seq<Token>)
    requires forall i :: 0 <= i < |code| ==> Encodable(code[i])
    ensures ParseInstructionsField(Listed("instructions", PrintInstructions(code)) + rest) == Some((code, rest))
  {
    hide ParseInstructions, PrintInstructions, ExpectAll, Encodable;
    var inside := PrintInstructions(code) + ([Punct(']')] + rest);
    assert Listed("instructions", PrintInstructions(code)) + rest == Open("instructions") + inside;
    Expected(Open("instructions"), inside);
    InstructionsRead(code, [Punct(']')] + rest);
    assert ([Punct(']')] + rest)[1..] == rest;
  }

  /** The fields after the list of functions. */
  function ParseTail(functions: seq<Text>, ts: seq<Token>): Parsed<Text> {
    match ParseConstantsField(ts)
    case None => None
    case Some((constants, t1)) =>
    match ParseCount(t1)
    case None => None
    case Some((count, t2)) =>
    match ParseNamesField("local_vars", t2)
    case None => None
    case Some((locals, t3)) =>
    match ParseNamesField("local_ref_vars", t3)
    case None => None
    case Some((refs, t4)) =>
    match ParseNamesField("free_vars", t4)
    case None => None
    case Some((free, t5)) =>
    match ParseNamesField("names", t5)
    case None => None
    case Some((names, t6)) =>
    match ParseInstructionsField(t6)
    case None => None
    case Some((code, t7)) => Some((Text(functions, constants, count, locals, refs, free, names, code), t7))
  }

  /** `Function`. Nested functions start after the opening tokens, so reading
      them consumes input. */
  function ParseFunction(ts: seq<Token>): Parsed<Text>
    decreases |ts|, 0
  {
    match ExpectAll(ts, [Word("function"), Punct('{')] + Open("functions"))
    case None => None
    case Some(inside) =>
      match ParseFunctions(inside)
      case None => None
      case Some((functions, rest)) =>
        match ExpectAll(rest, CLOSE)
        case None => None
        case Some(t0) =>
          match ParseTail(functions, t0)
          case None => None
          case Some((f, t1)) =>
            match Expect(t1, Punct('}'))
            case None => None
            case Some(t2) => Some((f, t2))
  }

  function ParseFunctions(ts: seq<Token>): Parsed<seq<Text>>
    decreases |ts|, 2
  {
    if ts != [] && ts[0] == Punct(']') then Some(([], ts)) else ParseFunctionsPlus(ts)
  }

  function ParseFunctionsPlus(ts: seq<Token>): Parsed<seq<Text>>
    decreases |ts|, 1
  {
    match ParseFunction(ts)
    case None => None
    case Some((f, rest)) =>
      if rest != [] && rest[0] == Punct(',') && |rest| < |ts| then
        match ParseFunctionsPlus(rest[1..])
        case None => None
        case Some((fs, rest')) => Some(([f] + fs, rest'))
      else Some(([f], rest))
  }

  // ---------------------------------------------------------------- round trip

  /** Instructions are printable, recursively. */
  ghost predicate Printable(t: Text)
    decreases t
  {
    && (forall i :: 0 <= i < |t.instructions| ==> Encodable(t.instructions[i]))
    && (forall i :: 0 <= i < |t.functions| ==> Printable(t.functions[i]))
  }

  /** No name anywhere is a keyword of the format. */
  ghost predicate Readable(t: Text)
    decreases t
  {
    && NoKeyword(t.localVars) && NoKeyword(t.localReferenceVars) && NoKeyword(t.freeVars) && NoKeyword(t.names)
    && (forall i :: 0 <= i < |t.functions| ==> Readable(t.functions[i]))
  }

  lemma {:induction false} TailRead(t: Text, rest: seq<Token>)
    requires forall i :: 0 <= i < |t.instructions| ==> Encodable(t.instructions[i])
    ensures ParseTail(t.functions, PrintTail(t) + rest) ==
      if NoKeyword(t.localVars) && NoKeyword(t.localReferenceVars) && NoKeyword(t.freeVars) && NoKeyword(t.names)
      then Some((t, rest)) else None
  {
    hide ParseConstantsField, ParseNamesField, ParseInstructionsField, Field, Listed, NoKeyword, PrintNames, PrintConstants,
      PrintInstructions, Encodable;
    var t6 := Listed("instructions", PrintInstructions(t.instructions)) + rest;
    var t5 := Field("names", PrintNames(t.names)) + t6;
    var t4 := Field("free_vars", PrintNames(t.freeVars)) + t5;
    var t3 := Field("local_ref_vars", PrintNames(t.localReferenceVars)) + t4;
    var t2 := Field("local_vars", PrintNames(t.localVars)) + t3;
    var t1 := Count(t.parameterCount) + t2;
    assert PrintTail(t) + rest == Field("constants", PrintConstants(t.constants)) + t1;
    ConstantsFieldRead(t.constants, t1);
    assert t1[4..] == t2;
    NamesFieldRead("local_vars", t.localVars, t3);
    NamesFieldRead("local_ref_vars", t.localReferenceVars, t4);
    NamesFieldRead("free_vars", t.freeVars, t5);
    NamesFieldRead("names", t.names, t6);
    InstructionsFieldRead(t.instructions, rest);
  }

  /** Reading what was printed gives the same eight fields back, recursively, if
      and only if no name is a keyword; otherwise it is a syntax error. */
  lemma {:induction false} RoundTrip(t: Text, rest: seq<Token>)
    requires Printable(t)
    ensures ParseFunction(FunctionTokens(t) + rest) == if Readable(t) then Some((t, rest)) else None
    decreases t, 1
  {
    hide ParseTail, PrintTail, ParseFunctions, PrintFunctions, ExpectAll, NoKeyword, Encodable;
    var opening := [Word("function"), Punct('{')] + Open("functions");
    var after := PrintTail(t) + ([Punct('}')] + rest);
    var inside := PrintFunctions(t.functions) + (CLOSE + after);
    assert FunctionTokens(t) + rest == opening + inside by {
      assert Field("functions", PrintFunctions(t.functions)) == Open("functions") + PrintFunctions(t.functions) + CLOSE;
    }
    Expected(opening, inside);
    FunctionsRead(t.functions, CLOSE + after);
    Expected(CLOSE, after);
    TailRead(t, [Punct('}')] + rest);
    assert ([Punct('}')] + rest)[1..] == rest;
  }

  lemma {:induction false} PrintsSomething(t: Text)
    ensures |FunctionTokens(t)| > 0
  {}

  ghost predicate AllReadable(ts: seq<Text>) {
    forall i :: 0 <= i < |ts| ==> Readable(ts[i])
  }

  lemma {:induction false} FunctionsRead(ts: seq<Text>, rest: seq<Token>)
    requires forall i :: 0 <= i < |ts| ==> Printable(ts[i])
    requires rest != [] && rest[0] == Punct(']')
    ensures ParseFunctions(PrintFunctions(ts) + rest) == if AllReadable(ts) then Some((ts, rest)) else None
    decreases ts, 2
  {
    hide Printable, Readable;
    if ts == [] {
      assert PrintFunctions(ts) + rest == rest;
    } else {
      FunctionsPlusRead(ts, rest);
      assert (PrintFunctions(ts) + rest)[0] == Word("function");
    }
  }

  lemma {:induction false} FunctionsPlusRead(ts: seq<Text>, rest: seq<Token>)
    requires ts != [] && forall i :: 0 <= i < |ts| ==> Printable(ts[i])
    requires rest != [] && rest[0] == Punct(']')
    ensures ParseFunctionsPlus(PrintFunctions(ts) + rest) == if AllReadable(ts) then Some((ts, rest)) else None
    decreases ts, 0
  {
    hide ParseFunction, FunctionTokens, Printable, Readable;
    if |ts| == 1 {
      RoundTrip(ts[0], rest);
      assert ts == [ts[0]];
    } else {
      var tail := PrintFunctions(ts[1..]) + rest;
      assert PrintFunctions(ts) + rest == FunctionTokens(ts[0]) + ([Punct(',')] + tail);
      RoundTrip(ts[0], [Punct(',')] + tail);
      PrintsSomething(ts[0]);
      assert ([Punct(',')] + tail)[1..] == tail;
      FunctionsPlusRead(ts[1..], rest);
      assert ts == [ts[0]] + ts[1..];
      assert AllReadable(ts) <==> Readable(ts[0]) && AllReadable(ts[1..]) by {
        if Readable(ts[0]) && AllReadable(ts[1..]) {
          forall i | 0 <= i < |ts| ensures Readable(ts[i]) { if i > 0 { assert ts[i] == ts[1..][i - 1]; } }
        }
        if AllReadable(ts) {
          forall i | 0 <= i < |ts[1..]| ensures Readable(ts[1..][i]) { assert ts[1..][i] == ts[i + 1]; }
        }
      }
    }
  }

  /** The textual form of a function of the machine: the derived reference
      indices are not part of it. */
  function TextOf(fn: Function): Text
    decreases fn
  {
    Text(seq(|fn.functions|, i requires 0 <= i < |fn.functions| => TextOf(fn.functions[i])),
         fn.constants, fn.parameterCount, fn.localVars, fn.localReferenceVars, fn.freeVars, fn.names, fn.instructions)
  }

  lemma {:induction false} FunctionRoundTrip(fn: Function)
    requires Printable(TextOf(fn))
    ensures ParseFunction(FunctionTokens(TextOf(fn))) == Some((TextOf(fn), [])) <==> Readable(TextOf(fn))
  {
    hide ParseFunction, FunctionTokens, TextOf, Readable;
    RoundTrip(TextOf(fn), []);
    assert FunctionTokens(TextOf(fn)) + [] == FunctionTokens(TextOf(fn));
  }

  // ---------------------------------------------------------------- the printer

  /** What is left of a list printed with commas in front of all but the first. */
  function NamesLeft(xs: seq<string>, i: nat): seq<Token>
    requires i <= |xs|
  {
    if 0 < i < |xs| then [Punct(',')] + PrintNames(xs[i..]) else PrintNames(xs[i..])
  }

  function ConstantsLeft(cs: seq<Constant>, i: nat): seq<Token>
    requires i <= |cs|
  {
    if 0 < i < |cs| then [Punct(',')] + PrintConstants(cs[i..]) else PrintConstants(cs[i..])
  }

  lemma {:induction false} NameLeft(xs: seq<string>, i: nat)
    requires i < |xs|
    ensures NamesLeft(xs, i) == (if i != 0 then [Punct(',')] else []) + [Word(xs[i])] + NamesLeft(xs, i + 1)
  {
    assert xs[i..][1..] == xs[i + 1..] && xs[i..][0] == xs[i];
    assert [Word(xs[i]), Punct(',')] + PrintNames(xs[i + 1..]) == [Word(xs[i])] + ([Punct(',')] + PrintNames(xs[i + 1..]));
  }

  lemma {:induction false} ConstantLeft(cs: seq<Constant>, i: nat)
    requires i < |cs|
    ensures ConstantsLeft(cs, i) == (if i != 0 then [Punct(',')] else []) + PrintConstant(cs[i]) + ConstantsLeft(cs, i + 1)
  {
    assert cs[i..][1..] == cs[i + 1..] && cs[i..][0] == cs[i];
  }

  /** `os` is the stream; blanks are not tokens. */
  class PrettyPrinter {
    var indentation: nat
    var os: seq<Token>

    constructor ()
      ensures indentation == 0 && os == []
    {
      indentation, os := 0, [];
    }

    method Emit(ts: seq<Token>)
      modifies this`os
      ensures os == old(os) + ts
    {
      os := os + ts;
    }

    method PrintNameList(name: string, names: seq<string>)
      modifies this`os
      ensures os == old(os) + Field(name, PrintNames(names))
    {
      hide PrintNames;
      Emit([Word(name), Punct('='), Punct('[')]);
      PrintCommaNames(names);
      Emit([Punct(']'), Punct(',')]);
      FieldParts(old(os), name, PrintNames(names));
    }

    method PrintCommaNames(names: seq<string>)
      modifies this`os
      ensures os == old(os) + PrintNames(names)
    {
      hide PrintNames, NamesLeft;
      NamesEnds(names);
      for i := 0 to |names|
        invariant os + NamesLeft(names, i) == old(os) + PrintNames(names)
      {
        NameLeft(names, i);
        var comma := if i != 0 then [Punct(',')] else [];
        Regroup(os, comma, [Word(names[i])], NamesLeft(names, i + 1));
        if i != 0 { Emit(comma); } else { assert os + comma == os; }
        Emit([Word(names[i])]);
      }
    }

    method PrintConstantList(constants: seq<Constant>)
      modifies this`os
      ensures os == old(os) + Field("constants", PrintConstants(constants))
    {
      hide PrintConstants;
      Emit([Word("constants"), Punct('='), Punct('[')]);
      PrintCommaConstants(constants);
      Emit([Punct(']'), Punct(',')]);
      FieldParts(old(os), "constants", PrintConstants(constants));
    }

    method PrintCommaConstants(constants: seq<Constant>)
      modifies this`os
      ensures os == old(os) + PrintConstants(constants)
    {
      hide PrintConstants, ConstantsLeft, PrintConstant;
      ConstantsEnds(constants);
      for i := 0 to |constants|
        invariant os + ConstantsLeft(constants, i) == old(os) + PrintConstants(constants)
      {
        ConstantLeft(constants, i);
        var comma := if i != 0 then [Punct(',')] else [];
        Regroup(os, comma, PrintConstant(constants[i]), ConstantsLeft(constants, i + 1));
        if i != 0 { Emit(comma); } else { assert os + comma == os; }
        Emit(PrintConstant(constants[i]));
      }
    }

    method PrintInstructionList(code: seq<Instruction>)
      modifies this`os
      ensures os == old(os) + PrintInstructions(code)
    {
      hide PrintInstruction;
      assert code[0..] == code;
      for i := 0 to |code|
        invariant os + PrintInstructions(code[i..]) == old(os) + PrintInstructions(code)
      {
        assert code[i..][1..] == code[i + 1..] && code[i..][0] == code[i];
        Emit(PrintInstruction(code[i]));
      }
      assert code[|code|..] == [];
    }

    /** Nested functions are printed between commas; the indentation is restored. */
    method Print(t: Text)
      modifies this
      ensures os == old(os) + FunctionTokens(t) && indentation == old(indentation)
      decreases t, 1
    {
      hide PrintTail, PrintFunctions;
      ghost var start := os;
      Emit([Word("function"), Punct('{')]);
      indentation := indentation + 1;
      Emit([Word("functions"), Punct('='), Punct('[')]);
      if |t.functions| != 0 {
        indentation := indentation + 1;
        PrintFunctionList(t.functions);
        indentation := indentation - 1;
      } else {
        NothingLeft();
      }
      Emit([Punct(']'), Punct(',')]);
      PrintTheRest(t);
      indentation := indentation - 1;
      Emit([Punct('}')]);
      assert os == start + FunctionTokens(t);
    }

    method PrintFunctionList(ts: seq<Text>)
      modifies this
      ensures os == old(os) + PrintFunctions(ts) && indentation == old(indentation)
      decreases ts, 0
    {
      hide FunctionTokens;
      assert ts[0..] == ts;
      for i := 0 to |ts|
        invariant indentation == old(indentation)
        invariant os + PrintFunctions(ts[i..]) == old(os) + PrintFunctions(ts)
      {
        assert ts[i..][1..] == ts[i + 1..] && ts[i..][0] == ts[i];
        Print(ts[i]);
        if i != |ts| - 1 { Emit([Punct(',')]); }
      }
      assert ts[|ts|..] == [];
    }

    method PrintTheRest(t: Text)
      modifies this
      ensures os == old(os) + PrintTail(t) && indentation == old(indentation)
    {
      hide Field, Listed, PrintNames, PrintConstants, PrintInstructions;
      ghost var start := os;
      PrintConstantList(t.constants);
      Emit([Word("parameter_count"), Punct('='), Num(t.parameterCount), Punct(',')]);
      PrintNameList("local_vars", t.localVars);
      PrintNameList("local_ref_vars", t.localReferenceVars);
      PrintNameList("free_vars", t.freeVars);
      PrintNameList("names", t.names);
      ghost var before := os;
      Emit([Word("instructions"), Punct('='), Punct('[')]);
      indentation := indentation + 1;
      PrintInstructionList(t.instructions);
      indentation := indentation - 1;
      Emit([Punct(']')]);
      assert os == before + Listed("instructions", PrintInstructions(t.instructions)) by { ListedParts("instructions", PrintInstructions(t.instructions)); }
      Reassociate(start, Field("constants", PrintConstants(t.constants)), Count(t.parameterCount),
        Field("local_vars", PrintNames(t.localVars)), Field("local_ref_vars", PrintNames(t.localReferenceVars)),
        Field("free_vars", PrintNames(t.freeVars)), Field("names", PrintNames(t.names)),
        Listed("instructions", PrintInstructions(t.instructions)));
    }
  }

  lemma {:induction false} NamesEnds(xs: seq<string>)
    ensures NamesLeft(xs, 0) == PrintNames(xs) && NamesLeft(xs, |xs|) == []
  {
    assert xs[0..] == xs && xs[|xs|..] == [];
  }

  lemma {:induction false} ConstantsEnds(cs: seq<Constant>)
    ensures ConstantsLeft(cs, 0) == PrintConstants(cs) && ConstantsLeft(cs, |cs|) == []
  {
    assert cs[0..] == cs && cs[|cs|..] == [];
  }

  lemma {:induction false} Regroup<T>(s: seq<T>, a: seq<T>, b: seq<T>, c: seq<T>)
    ensures s + (a + b + c) == ((s + a) + b) + c
  {}

  lemma {:induction false} FieldParts(s: seq<Token>, name: string, inside: seq<Token>)
    ensures s + Field(name, inside) == s + [Word(name), Punct('='), Punct('[')] + inside + [Punct(']'), Punct(',')]
  {}

  lemma {:induction false} NothingLeft()
    ensures PrintNames([]) == [] && PrintConstants([]) == [] && PrintFunctions([]) == []
  {}

  lemma {:induction false} ListedParts(name: string, inside: seq<Token>)
    ensures Listed(name, inside) == [Word(name), Punct('='), Punct('[')] + inside + [Punct(']')]
  {}

  lemma {:induction false} Reassociate<T>(s: seq<T>, a: seq<T>, b: seq<T>, c: seq<T>, d: seq<T>, e: seq<T>, f: seq<T>, g: seq<T>)
    ensures s + a + b + c + d + e + f + g == s + (a + (b + (c + (d + (e + (f + g))))))
  {}
}

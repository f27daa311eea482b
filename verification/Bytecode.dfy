/** Instructions, constants and functions of the virtual machine. */
module Bytecode {
  datatype Constant = NoneC | BooleanC(flag: bool) | IntegerC(int_: int) | StringC(text: string)

  datatype Instruction =
    | LoadConst(i: int) | LoadFunc(i: int)
    | LoadLocal(i: int) | StoreLocal(i: int)
    | LoadGlobal(i: int) | StoreGlobal(i: int)
    | PushReference(i: int)
    | PushNamed(name: string)      // a PushReference whose index is patched later
    | LoadReference | StoreReference
    | AllocRecord | FieldLoad(i: int) | FieldStore(i: int) | IndexLoad | IndexStore
    | AllocClosure(n: int) | Call(n: int) | Return
    | Add | Sub | Mul | Div | Neg
    | Gt | Geq | Eq | And | Or | Not
    | Goto(offset: int) | If(offset: int)
    | Dup | Swap | Pop

  /** The three functions the machine supplies itself. */
  datatype Builtin = Compiled | PrintFunction | InputFunction | IntcastFunction

  datatype Function = Function(
    builtin: Builtin,
    functions: seq<Function>,
    constants: seq<Constant>,
    parameterCount: nat,
    localVars: seq<string>,
    localReferenceVars: seq<string>,
    localReferenceIndices: seq<nat>,
    freeVars: seq<string>,
    names: seq<string>,
    instructions: seq<Instruction>)
}

/**
 * The abstract syntax tree of xlang (xlang/xl_ast.py).
 *
 * The tree is the union of the node kinds that the validation pass consumes:
 * besides the variants declared in xl_ast.py it has enums, the CHAR and F32
 * primitives, unary operations, struct initializers, `reference` parameters
 * (xl_ast.py:178-180 still calls them `inout`) and the BUILTIN_GENERIC type
 * category that the builtin registry uses.
 *
 * Python `isinstance` dispatch over node classes becomes pattern matching
 * over closed datatypes, so the "Unhandled statement" and "Unknown expression"
 * branches of the checker cannot be reached here.
 */
module Ast {
  import opened Wrappers

  /** PrimitiveType (xl_ast.py:17-28), extended with F32 and CHAR. FLOAT stays
      a tag of its own: the interpreter's NUMBER_TYPES still names FLOAT while
      the validation pass types float literals and `f32` as F32. */
  datatype PrimitiveType =
    | I64 | I32 | I16 | I8
    | U64 | U32 | U16 | U8
    | STRING | FLOAT | BOOL | F32 | CHAR

  /** INTEGER_TYPES (xl_ast.py:31-40), in the source's order. */
  const IntegerTypes: seq<PrimitiveType> := [I64, I32, I16, I8, U64, U32, U16, U8]

  /** NUMBER_TYPES (xl_ast.py:43). */
  const NumberTypes: seq<PrimitiveType> := IntegerTypes + [FLOAT]

  predicate IsSignedInt(p: PrimitiveType) { p == I8 || p == I16 || p == I32 || p == I64 }

  predicate IsUnsignedInt(p: PrimitiveType) { p == U8 || p == U16 || p == U32 || p == U64 }

  /** Width in bits of an integer primitive; 0 for the others. */
  function BitWidth(p: PrimitiveType): nat
  {
    match p
    case I8 => 8
    case U8 => 8
    case I16 => 16
    case U16 => 16
    case I32 => 32
    case U32 => 32
    case I64 => 64
    case U64 => 64
    case _ => 0
  }

  lemma IntegerTypesAreTheEightWidths(p: PrimitiveType)
    ensures p in IntegerTypes <==> IsSignedInt(p) || IsUnsignedInt(p)
    ensures p in IntegerTypes <==> BitWidth(p) > 0
    ensures STRING !in IntegerTypes && BOOL !in IntegerTypes && FLOAT !in IntegerTypes
    ensures |IntegerTypes| == 8
  {
  }

  lemma NumberTypesAddOnlyFloat(p: PrimitiveType)
    ensures p in NumberTypes <==> p in IntegerTypes || p == FLOAT
    ensures F32 !in NumberTypes && STRING !in NumberTypes && BOOL !in NumberTypes && CHAR !in NumberTypes
  {
  }

  /** A lexer token as far as ParseContext reads it. A lark token is a
      string, so an empty token text is falsy in `if token:`. */
  datatype Token = Token(text: string, startPos: int, endPos: int, posInStream: int, line: int, column: int)

  datatype ParseContext = ParseContext(startPos: int, endPos: int, line: int, column: int, builtin: bool)

  /** ParseContext.__init__ (xl_ast.py:54-65). */
  function MakeContext(token: Option<Token>, oldFormat: bool): (c: ParseContext)
    ensures c.builtin <==> token.None? || token.value.text == ""
    ensures !c.builtin ==> c.line == token.value.line && c.column == token.value.column
    ensures !c.builtin && oldFormat ==> c.startPos == c.endPos == token.value.posInStream
    ensures !c.builtin && !oldFormat ==> c.startPos == token.value.startPos && c.endPos == token.value.endPos
    ensures c.builtin ==> c == BuiltinContext()
  {
    if token.Some? && token.value.text != "" then
      var t := token.value;
      if oldFormat then ParseContext(t.posInStream, t.posInStream, t.line, t.column, false)
      else ParseContext(t.startPos, t.endPos, t.line, t.column, false)
    else
      BuiltinContext()
  }

  /** The context of builtins: the dataclass defaults with `builtin` set. */
  function BuiltinContext(): ParseContext
  {
    ParseContext(0, 0, 0, 0, true)
  }

  function DigitChar(d: nat): char
    requires d < 10
  {
    "0123456789"[d]
  }

  predicate AllDigits(s: string)
  {
    forall i :: 0 <= i < |s| ==> '0' <= s[i] <= '9'
  }

  /** The number a string of decimal digits denotes. */
  function DigitsValue(s: string): nat
    requires AllDigits(s)
  {
    if |s| == 0 then 0
    else DigitsValue(s[..|s| - 1]) * 10 + (s[|s| - 1] - '0') as nat
  }

  /** A signed decimal numeral: an optional minus sign, then digits. */
  function NumeralValue(s: string): int
    requires |s| > 0 && (if s[0] == '-' then AllDigits(s[1..]) else AllDigits(s))
  {
    if s[0] == '-' then -(DigitsValue(s[1..]) as int) else DigitsValue(s)
  }

  /** Python's `str` of a non-negative int: the digits that denote it. */
  function NatToString(n: nat): (s: string)
    ensures |s| >= 1 && AllDigits(s)
    ensures DigitsValue(s) == n
  {
    if n < 10 then [DigitChar(n)]
    else
      var s := NatToString(n / 10) + [DigitChar(n % 10)];
      assert s[..|s| - 1] == NatToString(n / 10);
      s
  }

  /** Python's `str` of an int: a numeral that reads back as that int. */
  function IntToString(i: int): (s: string)
    ensures |s| > 0 && (if s[0] == '-' then AllDigits(s[1..]) else AllDigits(s))
    ensures NumeralValue(s) == i
  {
    if i < 0 then
      var s := "-" + NatToString(-i);
      assert s[1..] == NatToString(-i);
      s
    else NatToString(i)
  }

  /** ParseContext.__repr__ (xl_ast.py:67-71). */
  function ContextRepr(c: ParseContext): (s: string)
    ensures c.builtin ==> s == "<builtin>"
    ensures !c.builtin ==> |s| > 6 && s[..6] == "line: "
  {
    if c.builtin then "<builtin>"
    else "line: " + IntToString(c.line) + ", column: " + IntToString(c.column)
  }

  /** The repr of a parsed node's context shows its line after "line: " and
      its column after ", column: ", each as a numeral that reads back as
      the number. */
  lemma ContextReprShowsPosition(c: ParseContext)
    requires !c.builtin
    ensures var s := ContextRepr(c);
      var k := 6 + |IntToString(c.line)|;
      && |s| > k + 10
      && s[..6] == "line: " && s[6..k] == IntToString(c.line) && NumeralValue(s[6..k]) == c.line
      && s[k..k + 10] == ", column: " && s[k + 10..] == IntToString(c.column) && NumeralValue(s[k + 10..]) == c.column
  {
    var l := IntToString(c.line);
    var s := ContextRepr(c);
    assert s == "line: " + l + ", column: " + IntToString(c.column);
    assert s[6..6 + |l|] == l;
    assert s[6 + |l|..6 + |l| + 10] == ", column: ";
    assert s[6 + |l| + 10..] == IntToString(c.column);
  }

  /** VariableType (xl_ast.py:74-79). Each category carries exactly the
      fields the source fills for it; Unknown is the parser's placeholder
      holding the type name as written. */
  datatype VarType =
    | Unknown(name: string)
    | Primitive(primitive: PrimitiveType)
    | Array(elem: VarType)
    | Struct(name: string)
    | Enum(name: string)
    | BuiltinGeneric

  /** `type.primitive_type`: None for every category but PRIMITIVE. */
  function PrimitiveOf(t: VarType): Option<PrimitiveType>
  {
    if t.Primitive? then Some(t.primitive) else None
  }

  /** The literal of a Constant; its constructor is the node's ConstantType. */
  datatype Literal =
    | IntLit(i: int)
    | FloatLit(r: real)
    | StrLit(s: string)
    | BoolLit(b: bool)
    | CharLit(c: char)

  /** Expression nodes. Every node has the mutable `type` slot of
      BaseExpression as `ty`; the validation pass fills it. */
  datatype Expr =
    | Const(ty: Option<VarType>, ctx: ParseContext, lit: Literal)
    | Access(access: VarAccess)
    | Call(call: FunctionCall)
    | Math(ty: Option<VarType>, ctx: ParseContext, op1: Expr, op2: Expr, operator: string)
    | Compare(ty: Option<VarType>, ctx: ParseContext, op1: Expr, op2: Expr, operator: string)
    | Unary(ty: Option<VarType>, ctx: ParseContext, operand: Expr, operator: string)
    | StructInit(ty: Option<VarType>, ctx: ParseContext, structName: string, fieldInits: seq<FieldInit>)

  /** VariableAccess: `name[index].member` and an optional trailing method call. */
  datatype VarAccess = VarAccess(
    ty: Option<VarType>,
    ctx: ParseContext,
    name: string,
    index: Option<Expr>,
    member: Option<VarAccess>,
    methodCall: Option<FunctionCall>)

  datatype FunctionCall = FunctionCall(ty: Option<VarType>, ctx: ParseContext, name: string, args: seq<Expr>)

  datatype FieldInit = FieldInit(ctx: ParseContext, fieldName: string, value: Expr)

  /** The `type` slot of any expression node. */
  function TypeOf(e: Expr): Option<VarType>
  {
    match e
    case Access(a) => a.ty
    case Call(c) => c.ty
    case _ => e.ty
  }

  function ContextOf(e: Expr): ParseContext
  {
    match e
    case Access(a) => a.ctx
    case Call(c) => c.ctx
    case _ => e.ctx
  }

  /** FunctionCall.__init__ (xl_ast.py:145-149): the node is untyped until
      validation, and the same node is used as a statement and as an expression. */
  function NewFunctionCall(name: string, params: seq<Expr>, ctx: ParseContext): (c: FunctionCall)
    ensures c.ty.None? && c.name == name && c.args == params && c.ctx == ctx
    ensures CallStmt(c).call == Call(c).call
  {
    FunctionCall(None, ctx, name, params)
  }

  datatype Stmt =
    | Decl(ctx: ParseContext, name: string, varType: VarType)
    | Def(ctx: ParseContext, name: string, varType: VarType, value: Expr, isConst: bool)
    | Assign(ctx: ParseContext, target: VarAccess, value: Expr)
    | CallStmt(call: FunctionCall)
    | AccessStmt(access: VarAccess)
    | Loop(ctx: ParseContext, body: seq<Stmt>)
    | If(ctx: ParseContext, cond: Expr, body: seq<Stmt>, elifs: seq<Elif>, elseBranch: Option<Else>)
    | Return(ctx: ParseContext, returnValue: Option<Expr>)
    | Continue(ctx: ParseContext)
    | Break(ctx: ParseContext)

  datatype Elif = Elif(ctx: ParseContext, cond: Expr, body: seq<Stmt>)

  datatype Else = Else(ctx: ParseContext, body: seq<Stmt>)

  /** If's dataclass defaults (xl_ast.py:206-211). */
  function NewIf(ctx: ParseContext, cond: Expr, body: seq<Stmt>): (s: Stmt)
    ensures s.If? && s.elifs == [] && s.elseBranch.None?
    ensures s.cond == cond && s.body == body
  {
    If(ctx, cond, body, [], None)
  }

  /** Return's dataclass default (xl_ast.py:233-235). */
  function NewReturn(ctx: ParseContext): (s: Stmt)
    ensures s.Return? && s.returnValue.None?
  {
    Return(ctx, None)
  }

  /** FunctionParameter (xl_ast.py:178-180 with `reference` for `inout`). */
  datatype Param = Param(name: string, paramType: VarType, ctx: ParseContext, reference: bool)

  /** A user Function (xl_ast.py:190-193). */
  datatype Function = Function(
    name: string,
    returnType: Option<VarType>,
    params: seq<Param>,
    body: seq<Stmt>,
    ctx: ParseContext)

  /** A struct member with its optional default value. */
  datatype Member = Member(name: string, paramType: VarType, ctx: ParseContext, defaultValue: Option<Expr>)

  datatype StructType = StructType(name: string, members: seq<Member>, ctx: ParseContext)

  datatype EnumType = EnumType(name: string, entries: seq<string>)

  /** GlobalScope (xl_ast.py:89-92) with the `enums` table of later
      revisions. Structs and user functions keep their declaration order,
      which is the order in which the validation pass visits them; names
      are unique because the transformer rejects redefinitions. */
  datatype GlobalScope = GlobalScope(structs: seq<StructType>, functions: seq<Function>, enums: map<string, EnumType>)

  predicate UniqueNames(g: GlobalScope)
  {
    && (forall i, j :: 0 <= i < j < |g.structs| ==> g.structs[i].name != g.structs[j].name)
    && (forall i, j :: 0 <= i < j < |g.functions| ==> g.functions[i].name != g.functions[j].name)
  }

  /** `name in global_scope.structs` and `global_scope.structs[name]`. */
  function FindStruct(structs: seq<StructType>, name: string): (r: Option<StructType>)
    ensures r.Some? ==> r.value in structs && r.value.name == name
    ensures r.None? <==> forall s :: s in structs ==> s.name != name
  {
    if structs == [] then None
    else if structs[0].name == name then Some(structs[0])
    else FindStruct(structs[1..], name)
  }

  function FindFunction(functions: seq<Function>, name: string): (r: Option<Function>)
    ensures r.Some? ==> r.value in functions && r.value.name == name
    ensures r.None? <==> forall f :: f in functions ==> f.name != name
  {
    if functions == [] then None
    else if functions[0].name == name then Some(functions[0])
    else FindFunction(functions[1..], name)
  }
}

/**
 * The error taxonomy of xlang/exceptions.py. ContextException and its
 * subclasses carry a position and, once the validation pass has tagged
 * them, the enclosing function; InternalCompilerError carries only a
 * message. Host crashes of the Python program (a failed `assert`, an
 * AttributeError on None, a missing dictionary key) are reported as
 * Internal too, and the interpreter's plain `Exception`s as Runtime.
 */
module Exceptions {
  import opened Wrappers
  import opened Ast

  datatype Error =
    | ContextError(message: string, ctx: ParseContext, functionName: Option<string>, functionContext: Option<ParseContext>)
    | TypeMismatch(message: string, ctx: ParseContext, functionName: Option<string>, functionContext: Option<ParseContext>)
    | AssertionFailure(message: string, ctx: ParseContext, functionName: Option<string>, functionContext: Option<ParseContext>)
    | Internal(message: string)
    | Runtime(message: string)
  {
    /** Is this a ContextException (or one of its subclasses)? */
    predicate IsContextException() { ContextError? || TypeMismatch? || AssertionFailure? }
  }

  function Context(message: string, ctx: ParseContext): Error
  {
    ContextError(message, ctx, None, None)
  }

  function Mismatch(message: string, ctx: ParseContext): Error
  {
    TypeMismatch(message, ctx, None, None)
  }

  /** `ex.function_name = ...; ex.function_parse_context = ...` on a caught
      ContextException; other errors pass through untouched. */
  function TagWithFunction(e: Error, name: string, ctx: ParseContext): (r: Error)
    ensures r.IsContextException() <==> e.IsContextException()
    ensures e.IsContextException() ==> r.functionName == Some(name) && r.functionContext == Some(ctx)
    ensures e.IsContextException() ==> r.message == e.message && r.ctx == e.ctx
    ensures r.ContextError? == e.ContextError? && r.TypeMismatch? == e.TypeMismatch?
    ensures r.AssertionFailure? == e.AssertionFailure?
    ensures !e.IsContextException() ==> r == e
  {
    if e.IsContextException() then e.(functionName := Some(name), functionContext := Some(ctx)) else e
  }
}

/**
 * The validation pass (xlang/validation_pass.py) as functions on values.
 *
 * Each checker function returns, on success, the type it computed and a
 * copy of its node with the `type` slots filled exactly where the source
 * writes them: every node that passes through `expression` (397-468) and
 * every VariableAccess that `variable_access` finishes (235). Nodes of a
 * struct-member chain, method-call nodes and calls used as statements keep
 * their slots; their arguments and index expressions are annotated. The
 * first error the source would raise is the Failure.
 */
module Check {
  import opened Wrappers
  import opened Ast
  import opened Exceptions
  import opened Types
  import opened Frames
  import opened Scopes
  import Builtins

  /** What a Typeifier reads but never changes: the global scope (already
      resolved by the first two phases of the driver) and the function
      whose body it checks. */
  datatype Env = Env(g: GlobalScope, fn: Function)

  /** What a Typeifier changes while checking statements. */
  datatype State = State(frames: Scope, insideLoop: bool)

  // ---------------------------------------------------------------------
  // Sizes for the mutual recursion over expressions.

  function ExprSize(e: Expr): (n: nat)
    ensures n >= 1
    decreases e
  {
    match e
    case Const(_, _, _) => 1
    case Access(a) => 1 + AccessSize(a)
    case Call(c) => 1 + CallSize(c)
    case Math(_, _, a, b, _) => 1 + ExprSize(a) + ExprSize(b)
    case Compare(_, _, a, b, _) => 1 + ExprSize(a) + ExprSize(b)
    case Unary(_, _, a, _) => 1 + ExprSize(a)
    case StructInit(_, _, _, inits) => 1 + InitsSize(inits)
  }

  function AccessSize(a: VarAccess): (n: nat)
    ensures n >= 1
    decreases a
  {
    1
    + (if a.index.Some? then ExprSize(a.index.value) else 0)
    + (if a.member.Some? then AccessSize(a.member.value) else 0)
    + (if a.methodCall.Some? then CallSize(a.methodCall.value) else 0)
  }

  function CallSize(c: FunctionCall): (n: nat)
    ensures n >= 1
    decreases c
  {
    1 + ArgsSize(c.args)
  }

  function ArgsSize(args: seq<Expr>): nat
    decreases args
  {
    if |args| == 0 then 0 else ExprSize(args[0]) + ArgsSize(args[1..])
  }

  function InitsSize(inits: seq<FieldInit>): nat
    decreases inits
  {
    if |inits| == 0 then 0 else 1 + ExprSize(inits[0].value) + InitsSize(inits[1..])
  }

  // ---------------------------------------------------------------------
  // Helpers for the host behaviour on a missing (None) type.

  /** Reading `.variable_type` of a None type is an AttributeError. */
  function RequireType(t: Option<VarType>): (r: Result<VarType, Error>)
    ensures t.Some? ==> r == Success(t.value)
    ensures t.None? ==> r.Failure? && r.error.Internal?
  {
    match t
    case Some(v) => Success(v)
    case None => Failure(Internal("'NoneType' object has no attribute 'variable_type'"))
  }

  /** is_type_compatible called with possibly-None types: a BUILTIN_GENERIC
      target accepts even None, any other None operand is a host crash. */
  function Compat(target: Option<VarType>, source: Option<VarType>): (r: Result<bool, Error>)
    ensures target.Some? && source.Some? ==> r == IsTypeCompatible(target.value, source.value)
    ensures target.Some? && target.value.BuiltinGeneric? ==> r == Success(true)
    ensures target.None? ==> r.Failure? && r.error.Internal?
  {
    match target
    case None => Failure(Internal("'NoneType' object has no attribute 'variable_type'"))
    case Some(t) =>
      if t.BuiltinGeneric? then Success(true)
      else
        match source
        case None => Failure(Internal("'NoneType' object has no attribute 'variable_type'"))
        case Some(s) => IsTypeCompatible(t, s)
  }

  /** An index type the checker accepts: a primitive in INTEGER_TYPES. */
  predicate IsIntegerIndex(t: VarType)
  {
    t.Primitive? && t.primitive in IntegerTypes
  }

  // ---------------------------------------------------------------------
  // Python floor division and modulo.

  /** `a // b` for b != 0: the floor of the real quotient. */
  function FloorDiv(a: int, b: int): int
    requires b != 0
  {
    if b > 0 then a / b else (-a) / (-b)
  }

  /** `a % b` for b != 0: what is left after FloorDiv. */
  function FloorMod(a: int, b: int): int
    requires b != 0
  {
    a - b * FloorDiv(a, b)
  }

  // ---------------------------------------------------------------------
  // Constants, enums, calls.

  /** get_constant_type (630-654). */
  function ConstantType(ctx: ParseContext, lit: Literal): (r: Result<VarType, Error>)
    ensures !lit.IntLit? ==> r.Success?
    ensures lit.IntLit? ==> r == PrimitiveTypeFromConstant(lit.i, ctx)
    ensures lit.StrLit? ==> r == Success(Primitive(STRING))
    ensures lit.FloatLit? ==> r == Success(Primitive(F32))
    ensures lit.BoolLit? ==> r == Success(Primitive(BOOL))
    ensures lit.CharLit? ==> r == Success(Primitive(CHAR))
  {
    match lit
    case StrLit(_) => Success(Primitive(STRING))
    case FloatLit(_) => Success(Primitive(F32))
    case BoolLit(_) => Success(Primitive(BOOL))
    case CharLit(_) => Success(Primitive(CHAR))
    case IntLit(i) => PrimitiveTypeFromConstant(i, ctx)
  }

  /** get_enum_type (657-673): None when the name is no enum; otherwise the
      access must name a member of that enum. */
  function EnumType(a: VarAccess, g: GlobalScope): (r: Result<Option<VarType>, Error>)
    ensures a.name !in g.enums ==> r == Success(None)
    ensures r == Success(None) ==> a.name !in g.enums
    ensures r.Success? && r.value.Some? ==>
      && a.name in g.enums && a.member.Some?
      && a.member.value.name in g.enums[a.name].entries
      && r.value.value == Enum(g.enums[a.name].name)
    ensures a.name in g.enums && a.member.None? ==> r == Failure(Context("Enum access must specify a member", a.ctx))
    ensures a.name in g.enums && a.member.Some? && a.member.value.name !in g.enums[a.name].entries ==>
      r == Failure(Context("Unknown enum member: " + a.member.value.name, a.ctx))
  {
    if a.name !in g.enums then Success(None)
    else
      var en := g.enums[a.name];
      if a.member.None? then Failure(Context("Enum access must specify a member", a.ctx))
      else if a.member.value.name !in en.entries then Failure(Context("Unknown enum member: " + a.member.value.name, a.ctx))
      else Success(Some(Enum(en.name)))
  }

  /** The callee of function_call (476-484): user functions first, then the
      free builtins; the result is its parameter list and return type. */
  function CalleeSignature(g: GlobalScope, name: string, ctx: ParseContext): (r: Result<(seq<Param>, Option<VarType>), Error>)
    ensures FindFunction(g.functions, name).Some? ==>
      r == Success((FindFunction(g.functions, name).value.params, FindFunction(g.functions, name).value.returnType))
    ensures FindFunction(g.functions, name).None? && name in Builtins.BuiltinFunctions() ==>
      r == Success((Builtins.BuiltinFunctions()[name].params, Builtins.BuiltinFunctions()[name].returnType))
    ensures r.Failure? <==> FindFunction(g.functions, name).None? && name !in Builtins.BuiltinFunctions()
    ensures r.Failure? ==> r.error == Context("Unknown function called: " + name, ctx)
  {
    match FindFunction(g.functions, name)
    case Some(f) => Success((f.params, f.returnType))
    case None =>
      if name in Builtins.BuiltinFunctions() then
        var b := Builtins.BuiltinFunctions()[name];
        Success((b.params, b.returnType))
      else Failure(Context("Unknown function called: " + name, ctx))
  }

  /** The method looked up by method_call (522-558): array methods for
      arrays, the primitive's table for primitives; enums, structs and the
      remaining categories have no methods. */
  function MethodFor(t: VarType, name: string, ctx: ParseContext): (r: Result<Builtins.BuiltinFunction, Error>)
    ensures r.Success? <==>
      || (t.Array? && name in Builtins.ArrayMethods())
      || (t.Primitive? && t.primitive in Builtins.PrimitiveMethods() && name in Builtins.PrimitiveMethods()[t.primitive])
    ensures r.Success? && t.Array? ==> r.value == Builtins.ArrayMethods()[name]
    ensures r.Success? && t.Primitive? ==> r.value == Builtins.PrimitiveMethods()[t.primitive][name]
    ensures r.Failure? ==> r.error.ContextError?
  {
    if t.Array? then
      if name !in Builtins.ArrayMethods() then Failure(Context("Unknown array method: " + name, ctx))
      else Success(Builtins.ArrayMethods()[name])
    else if t.Primitive? then
      if t.primitive !in Builtins.PrimitiveMethods() || name !in Builtins.PrimitiveMethods()[t.primitive] then
        Failure(Context("Unknown primitive method: " + name + " for type ", ctx))
      else Success(Builtins.PrimitiveMethods()[t.primitive][name])
    else if t.Enum? then Failure(Context("Enum types do not support method calls: " + name, ctx))
    else if t.Struct? then Failure(Context("Struct methods are not currently supported: ", ctx))
    else Failure(Context("Method calls not supported for this type: ", ctx))
  }

  /** The first member with a given name: the `for ... break` of
      struct_access (338-345). */
  function FirstMember(members: seq<Member>, name: string): (r: Option<Member>)
    ensures r.Some? ==> r.value in members && r.value.name == name
    ensures r.None? <==> forall m :: m in members ==> m.name != name
  {
    if |members| == 0 then None
    else if members[0].name == name then Some(members[0])
    else FirstMember(members[1..], name)
  }

  /** The last member with a given name: the dict comprehension of
      struct_initialization (574) keeps the last duplicate. */
  function LastMember(members: seq<Member>, name: string): (r: Option<Member>)
    ensures r.Some? ==> r.value in members && r.value.name == name
    ensures r.None? <==> forall m :: m in members ==> m.name != name
  {
    if |members| == 0 then None
    else if members[|members| - 1].name == name then Some(members[|members| - 1])
    else LastMember(members[..|members| - 1], name)
  }

  /** The first member, in declaration order, that is an enum, has no
      default and was not initialized (612-621). */
  function FirstMissingEnumField(members: seq<Member>, initialized: set<string>): (r: Option<Member>)
    ensures r.Some? ==> r.value in members && r.value.name !in initialized && r.value.defaultValue.None? && r.value.paramType.Enum?
    ensures r.None? <==> forall m :: m in members ==> !(m.name !in initialized && m.defaultValue.None? && m.paramType.Enum?)
  {
    if |members| == 0 then None
    else if members[0].name !in initialized && members[0].defaultValue.None? && members[0].paramType.Enum? then Some(members[0])
    else FirstMissingEnumField(members[1..], initialized)
  }

  /** Is `r` reached from `a` by following member links? */
  predicate OnChain(r: VarAccess, a: VarAccess)
    decreases a
  {
    r == a || (a.member.Some? && OnChain(r, a.member.value))
  }

  /** The innermost access of a member chain (134-136): the end of `a`'s
      chain, the one access on it without a member. */
  function Innermost(a: VarAccess): (r: VarAccess)
    ensures r.member.None? && OnChain(r, a)
    ensures a.member.None? ==> r == a
    decreases a
  {
    if a.member.None? then a else Innermost(a.member.value)
  }

  // ---------------------------------------------------------------------
  // Constant folding.

  /** The integer fold of math_operation (257-274). */
  function FoldInt(operator: string, a: int, b: int, ctx: ParseContext): (r: Result<int, Error>)
    ensures (operator == "/" || operator == "%") && b == 0 ==> r == Failure(Context("Division by zero", ctx))
    ensures operator == "/" && b != 0 ==> r == Success(FloorDiv(a, b))
    ensures operator == "%" && b != 0 ==> r == Success(FloorMod(a, b))
    ensures r.Failure? <==> ((operator == "/" || operator == "%") && b == 0) || operator !in {"+", "-", "*", "/", "%"}
  {
    if operator == "+" then Success(a + b)
    else if operator == "-" then Success(a - b)
    else if operator == "*" then Success(a * b)
    else if operator == "/" then
      if b == 0 then Failure(Context("Division by zero", ctx)) else Success(FloorDiv(a, b))
    else if operator == "%" then
      if b == 0 then Failure(Context("Division by zero", ctx)) else Success(FloorMod(a, b))
    else Failure(Internal("Unknown math operator: " + operator))
  }

  /** The float fold of math_operation (279-308): only the zero-divisor
      check and the operator check matter, since the result is typed F32
      whatever its value. */
  function FoldFloat(operator: string, b: real, ctx: ParseContext): (r: Result<VarType, Error>)
    ensures r.Success? ==> r.value == Primitive(F32)
    ensures (operator == "/" || operator == "%") && b == 0.0 ==> r == Failure(Context("Division by zero", ctx))
    ensures r.Failure? <==> ((operator == "/" || operator == "%") && b == 0.0) || operator !in {"+", "-", "*", "/", "%"}
  {
    if operator == "+" || operator == "-" || operator == "*" then Success(Primitive(F32))
    else if operator == "/" || operator == "%" then
      if b == 0.0 then Failure(Context("Division by zero", ctx)) else Success(Primitive(F32))
    else Failure(Internal("Unknown math operator: " + operator))
  }

  /** The fallback of math_operation (311-318, 321-328): operand1's type if
      it accepts operand2's, else operand2's if it accepts operand1's. */
  function Unify(t1: Option<VarType>, t2: Option<VarType>, ctx: ParseContext): (r: Result<Option<VarType>, Error>)
    ensures Compat(t1, t2) == Success(true) ==> r == Success(t1)
    ensures Compat(t1, t2) == Success(false) && Compat(t2, t1) == Success(true) ==> r == Success(t2)
    ensures Compat(t1, t2) == Success(false) && Compat(t2, t1) == Success(false) ==>
      r == Failure(Context("Incompatible type in operator expressions", ctx))
    ensures r.Success? ==>
      || (r.value == t1 && Compat(t1, t2) == Success(true))
      || (r.value == t2 && Compat(t1, t2) == Success(false) && Compat(t2, t1) == Success(true))
    ensures r.Success? ==> r.value.Some?
  {
    var c1 :- Compat(t1, t2);
    if c1 then Success(t1)
    else
      var c2 :- Compat(t2, t1);
      if c2 then Success(t2) else Failure(Context("Incompatible type in operator expressions", ctx))
  }

  /** Are both operands integer constants, the case that folds? */
  predicate BothIntConstants(op1: Expr, op2: Expr)
  {
    op1.Const? && op2.Const? && op1.lit.IntLit? && op2.lit.IntLit?
  }

  predicate BothFloatConstants(op1: Expr, op2: Expr)
  {
    op1.Const? && op2.Const? && op1.lit.FloatLit? && op2.lit.FloatLit?
  }

  /** The result type of math_operation (238-328) once both operand types
      are known. */
  function MathResultType(op1: Expr, op2: Expr, t1: Option<VarType>, t2: Option<VarType>, operator: string, ctx: ParseContext): (r: Result<Option<VarType>, Error>)
    ensures r.Success? ==> r.value.Some?
  {
    if BothIntConstants(op1, op2) then
      var v :- FoldInt(operator, op1.lit.i, op2.lit.i, ctx);
      var t :- PrimitiveTypeFromConstant(v, ctx);
      Success(Some(t))
    else if BothFloatConstants(op1, op2) then
      var t :- FoldFloat(operator, op2.lit.r, ctx);
      Success(Some(t))
    else Unify(t1, t2, ctx)
  }

  // ---------------------------------------------------------------------
  // Expression typing (Typeifier.expression and the methods it calls).

  /** The type of a unary expression (417-466) once the operand's type is
      known. */
  function UnaryResultType(operator: string, operandType: Option<VarType>, ctx: ParseContext): (r: Result<VarType, Error>)
  {
    if operator == "not" then
      var t :- RequireType(operandType);
      if t != Primitive(BOOL) then Failure(Mismatch("not operator only works on bool values", ctx))
      else Success(Primitive(BOOL))
    else if operator == "-" then
      var t :- RequireType(operandType);
      if !t.Primitive? then Failure(Mismatch("unary minus operator only works on primitive numeric types", ctx))
      else if !(IsSignedInt(t.primitive) || t.primitive == F32) then
        if IsUnsignedInt(t.primitive) then Failure(Mismatch("unary minus operator cannot be used with unsigned integer types", ctx))
        else Failure(Mismatch("unary minus operator only works on signed integers and f32", ctx))
      else Success(t)
    else Failure(Internal("Unknown unary operator: " + operator))
  }

  /** Typeifier.expression (395-471). */
  function Expression(env: Env, frames: Scope, e: Expr): (r: Result<(Option<VarType>, Expr), Error>)
    ensures r.Success? ==> TypeOf(r.value.1) == r.value.0 && ContextOf(r.value.1) == ContextOf(e)
    ensures r.Success? && e.Access? ==> r.value.1.Access? && r.value.1.access.name == e.access.name
    ensures r.Success? && e.Call? ==> r.value.1.Call? && r.value.1.call.name == e.call.name
    ensures r.Success? && !e.Access? && !e.Call? ==> r.value.0.Some?
    decreases ExprSize(e), 0
  {
    match e
    case Call(c) =>
      var tc :- FunctionCallType(env, frames, c);
      Success((tc.0, Call(tc.1.(ty := tc.0))))
    case Access(a) =>
      var ta :- VariableAccessType(env, frames, a);
      Success((ta.0, Access(ta.1.(ty := ta.0))))
    case Const(_, ctx, lit) =>
      var t :- ConstantType(ctx, lit);
      Success((Some(t), Const(Some(t), ctx, lit)))
    case Math(_, ctx, op1, op2, operator) =>
      var t1 :- Expression(env, frames, op1);
      var t2 :- Expression(env, frames, op2);
      var t :- MathResultType(op1, op2, t1.0, t2.0, operator, ctx);
      Success((t, Math(t, ctx, t1.1, t2.1, operator)))
    case Compare(_, ctx, op1, op2, operator) =>
      var t1 :- Expression(env, frames, op1);
      var t2 :- Expression(env, frames, op2);
      var c1 :- Compat(t1.0, t2.0);
      var c2 :- if c1 then Success(true) else Compat(t2.0, t1.0);
      if !c2 then Failure(Mismatch("Operands cannot be compared", ctx))
      else Success((Some(Primitive(BOOL)), Compare(Some(Primitive(BOOL)), ctx, t1.1, t2.1, operator)))
    case Unary(_, ctx, operand, operator) =>
      var to :- Expression(env, frames, operand);
      var t :- UnaryResultType(operator, to.0, ctx);
      Success((Some(t), Unary(Some(t), ctx, to.1, operator)))
    case StructInit(_, ctx, name, inits) =>
      var ts :- StructInitialization(env, frames, ctx, name, inits);
      Success((Some(ts.0), StructInit(Some(ts.0), ctx, name, ts.1)))
  }

  /** Typeifier.variable_access (202-236): a variable (or, failing that,
      an enum), then its index, its member chain and its method call. The
      enum case returns before the node is annotated. */
  function VariableAccessType(env: Env, frames: Scope, a: VarAccess): (r: Result<(Option<VarType>, VarAccess), Error>)
    ensures r.Success? ==> r.value.1.name == a.name && r.value.1.ctx == a.ctx
    ensures r.Success? && TypeOfVariable(frames, a.name).Some? ==> r.value.1.ty == r.value.0
    ensures r.Success? ==>
      && (r.value.1.index.Some? <==> a.index.Some?)
      && (r.value.1.member.Some? <==> a.member.Some?)
      && (r.value.1.methodCall.Some? <==> a.methodCall.Some?)
    ensures r.Success? && TypeOfVariable(frames, a.name).None? ==>
      r.value.1 == a && EnumType(a, env.g) == Success(r.value.0) && r.value.0.Some?
    decreases AccessSize(a), 0
  {
    match TypeOfVariable(frames, a.name)
    case None =>
      var en :- EnumType(a, env.g);
      if en.Some? then Success((en, a))
      else Failure(Context("Unknown variable: " + a.name, a.ctx))
    case Some(vt) =>
      var ia :-
        if a.index.Some? then
          var x :- ArrayAccess(env, frames, vt, a.index.value);
          Success((x.0, Some(x.1)))
        else Success((vt, None));
      var ma :-
        if a.member.Some? then
          var y :- StructAccess(env, frames, ia.0, a.member.value);
          Success((y.0, Some(y.1)))
        else Success((ia.0, None));
      var mc :-
        if a.methodCall.Some? then
          var z :- MethodCall(env, frames, a.methodCall.value, ma.0);
          Success((z.0, Some(z.1)))
        else Success((Some(ma.0), None));
      Success((mc.0, a.(ty := mc.0, index := ia.1, member := ma.1, methodCall := mc.1)))
  }

  /** Typeifier.array_access (361-393). */
  function ArrayAccess(env: Env, frames: Scope, t: VarType, idx: Expr): (r: Result<(VarType, Expr), Error>)
    ensures r.Success? ==> (t.Array? && r.value.0 == t.elem) || (t == Primitive(STRING) && r.value.0 == Primitive(CHAR))
    ensures !t.Array? && t != Primitive(STRING) && Expression(env, frames, idx).Success? ==>
      r == Failure(Mismatch("Indexing not supported for this type", ContextOf(idx)))
    ensures r.Success? ==> TypeOf(r.value.1).Some? && IsIntegerIndex(TypeOf(r.value.1).value)
    decreases ExprSize(idx), 1
  {
    var ti :- Expression(env, frames, idx);
    if t.Array? then
      var at :- RequireType(ti.0);
      if !IsIntegerIndex(at) then Failure(Mismatch("Array index must be an integer", ContextOf(idx)))
      else Success((t.elem, ti.1))
    else if t == Primitive(STRING) then
      var at :- RequireType(ti.0);
      if !IsIntegerIndex(at) then Failure(Mismatch("String index must be an integer", ContextOf(idx)))
      else Success((Primitive(CHAR), ti.1))
    else Failure(Mismatch("Indexing not supported for this type", ContextOf(idx)))
  }

  /** Typeifier.struct_access (330-359). A method call on a chain member is
      not looked at here. */
  function StructAccess(env: Env, frames: Scope, t: VarType, sa: VarAccess): (r: Result<(VarType, VarAccess), Error>)
    ensures !t.Struct? ==> r == Failure(Context("Struct access on non-variable type", sa.ctx))
    ensures t.Struct? && t.name != "" && FindStruct(env.g.structs, t.name).Some?
              && FirstMember(FindStruct(env.g.structs, t.name).value.members, sa.name).None? ==>
      r == Failure(Context("Unknown struct field: " + sa.name, sa.ctx))
    ensures r.Success? ==> r.value.1.ty == sa.ty && r.value.1.methodCall == sa.methodCall && r.value.1.name == sa.name
    decreases AccessSize(sa), 0
  {
    if !t.Struct? then Failure(Context("Struct access on non-variable type", sa.ctx))
    else if t.name == "" then Failure(Internal("assertion failed in struct_access"))
    else
      match FindStruct(env.g.structs, t.name)
      case None => Failure(Internal("KeyError: " + t.name))
      case Some(st) =>
        match FirstMember(st.members, sa.name)
        case None => Failure(Context("Unknown struct field: " + sa.name, sa.ctx))
        case Some(m) =>
          var ia :-
            if sa.index.Some? then
              var x :- ArrayAccess(env, frames, m.paramType, sa.index.value);
              Success((x.0, Some(x.1)))
            else Success((m.paramType, None));
          var ma :-
            if sa.member.Some? then
              var y :- StructAccess(env, frames, ia.0, sa.member.value);
              Success((y.0, Some(y.1)))
            else Success((ia.0, None));
          Success((ma.0, sa.(index := ia.1, member := ma.1)))
  }

  /** Typeifier.method_call (522-561). */
  function MethodCall(env: Env, frames: Scope, mc: FunctionCall, t: VarType): (r: Result<(Option<VarType>, FunctionCall), Error>)
    ensures r.Success? ==> MethodFor(t, mc.name, mc.ctx).Success? && r.value.0 == MethodFor(t, mc.name, mc.ctx).value.returnType
    ensures r.Success? ==> r.value.1.ty == mc.ty && r.value.1.name == mc.name && |r.value.1.args| == |mc.args|
    decreases CallSize(mc), 1
  {
    var m :- MethodFor(t, mc.name, mc.ctx);
    var args :- CheckCallArguments(env, frames, mc.name, mc.ctx, mc.args, m.params);
    Success((m.returnType, mc.(args := args)))
  }

  /** Typeifier.function_call (473-486). */
  function FunctionCallType(env: Env, frames: Scope, c: FunctionCall): (r: Result<(Option<VarType>, FunctionCall), Error>)
    ensures r.Success? ==> CalleeSignature(env.g, c.name, c.ctx).Success? && r.value.0 == CalleeSignature(env.g, c.name, c.ctx).value.1
    ensures r.Success? ==> r.value.1.ty == c.ty && r.value.1.name == c.name && r.value.1.ctx == c.ctx && |r.value.1.args| == |c.args|
    decreases CallSize(c), 1
  {
    var sig :- CalleeSignature(env.g, c.name, c.ctx);
    var args :- CheckCallArguments(env, frames, c.name, c.ctx, c.args, sig.0);
    Success((sig.1, c.(args := args)))
  }

  /** Typeifier.check_call_arguments (488-520). */
  function CheckCallArguments(env: Env, frames: Scope, name: string, ctx: ParseContext, args: seq<Expr>, params: seq<Param>): (r: Result<seq<Expr>, Error>)
    ensures |args| != |params| ==>
      r == Failure(Context("function " + name + " takes " + NatToString(|params|) + " params, " + NatToString(|args|) + " given", ctx))
    ensures r.Success? ==> |r.value| == |args|
    decreases ArgsSize(args), 2
  {
    if |args| != |params| then
      Failure(Context("function " + name + " takes " + NatToString(|params|) + " params, " + NatToString(|args|) + " given", ctx))
    else CheckArgs(env, frames, args, params)
  }

  /** The loop of check_call_arguments (503-520), argument by argument. */
  function CheckArgs(env: Env, frames: Scope, args: seq<Expr>, params: seq<Param>): (r: Result<seq<Expr>, Error>)
    requires |args| == |params|
    ensures r.Success? ==> |r.value| == |args|
    decreases ArgsSize(args), 1
  {
    if |args| == 0 then Success([])
    else
      var p := params[0];
      var a := args[0];
      if p.reference && !a.Access? then Failure(Mismatch("Only variables allowed for reference parameters", ContextOf(a)))
      else if p.reference && IsConstVariable(frames, a.access.name) then
        Failure(Context("Variables passed as reference parameters cannot be const", ContextOf(a)))
      else
        var ta :- Expression(env, frames, a);
        var ok :- Compat(Some(p.paramType), ta.0);
        if !ok then Failure(Mismatch("Invalid function parameter type. Expected , but got ", ContextOf(a)))
        else
          var rest :- CheckArgs(env, frames, args[1..], params[1..]);
          Success([ta.1] + rest)
  }

  /** `out` is what an accepted argument `a` for parameter `p` became: it
      keeps its location, has a type `p` accepts, and `a` is a non-const
      variable where `p` is a reference. */
  predicate ArgAccepted(frames: Scope, a: Expr, p: Param, out: Expr)
  {
    && ContextOf(out) == ContextOf(a)
    && Compat(Some(p.paramType), TypeOf(out)) == Success(true)
    && (p.reference ==> a.Access? && !IsConstVariable(frames, a.access.name))
  }

  /** Every accepted argument keeps its location, has a type its parameter
      accepts, and is a non-const variable where the parameter is a
      reference. */
  lemma {:induction false} CheckedArguments(env: Env, frames: Scope, args: seq<Expr>, params: seq<Param>)
    requires |args| == |params|
    requires CheckArgs(env, frames, args, params).Success?
    ensures var out := CheckArgs(env, frames, args, params).value;
      forall i :: 0 <= i < |args| ==> ArgAccepted(frames, args[i], params[i], out[i])
    decreases |args|
  {
    if |args| > 0 {
      ArgsStep(env, frames, args, params);
      var out := CheckArgs(env, frames, args, params).value;
      var rest := CheckArgs(env, frames, args[1..], params[1..]).value;
      CheckedArguments(env, frames, args[1..], params[1..]);
      forall i | 1 <= i < |args|
        ensures ArgAccepted(frames, args[i], params[i], out[i])
      {
        assert out[i] == rest[i - 1] && args[i] == args[1..][i - 1] && params[i] == params[1..][i - 1];
      }
    }
  }

  /** An accepted argument list: its first argument passed every check, and
      the rest was accepted too. */
  lemma ArgsStep(env: Env, frames: Scope, args: seq<Expr>, params: seq<Param>)
    requires |args| == |params| > 0
    requires CheckArgs(env, frames, args, params).Success?
    ensures var ta := Expression(env, frames, args[0]);
      && ta.Success?
      && ArgAccepted(frames, args[0], params[0], ta.value.1)
      && CheckArgs(env, frames, args[1..], params[1..]).Success?
      && CheckArgs(env, frames, args, params).value == [ta.value.1] + CheckArgs(env, frames, args[1..], params[1..]).value
  {
  }

  /** Index i of a list built by prepending one element is index i - 1 of
      the rest. */
  lemma ShiftedIndex<T>(xs: seq<T>, x: T, ys: seq<T>)
    requires xs == [x] + ys
    ensures forall i :: 1 <= i < |xs| ==> xs[i] == ys[i - 1]
  {
  }

  /** Typeifier.struct_initialization (563-627). */
  function StructInitialization(env: Env, frames: Scope, ctx: ParseContext, name: string, inits: seq<FieldInit>): (r: Result<(VarType, seq<FieldInit>), Error>)
    ensures FindStruct(env.g.structs, name).None? ==> r == Failure(Context("Unknown struct: " + name, ctx))
    ensures r.Success? ==> r.value.0 == Struct(name) && |r.value.1| == |inits|
    ensures r.Success? ==> FindStruct(env.g.structs, name).Some?
    decreases InitsSize(inits), 3
  {
    match FindStruct(env.g.structs, name)
    case None => Failure(Context("Unknown struct: " + name, ctx))
    case Some(st) =>
      var fi :- FieldInits(env, frames, st.members, name, inits, {});
      match FirstMissingEnumField(st.members, fi.0)
      case Some(m) => Failure(Context("Enum field '" + m.name + "' must be explicitly initialized", ctx))
      case None => Success((Struct(name), fi.1))
  }

  /** The field-initializer loop of struct_initialization (580-607);
      `initialized` holds the fields seen so far. */
  function FieldInits(env: Env, frames: Scope, members: seq<Member>, structName: string, inits: seq<FieldInit>, initialized: set<string>): (r: Result<(set<string>, seq<FieldInit>), Error>)
    ensures r.Success? ==> |r.value.1| == |inits|
    decreases InitsSize(inits), 2
  {
    if |inits| == 0 then Success((initialized, []))
    else
      var fi := inits[0];
      match LastMember(members, fi.fieldName)
      case None => Failure(Context("Unknown field '" + fi.fieldName + "' in struct '" + structName + "'", fi.ctx))
      case Some(m) =>
        if fi.fieldName in initialized then Failure(Context("Field '" + fi.fieldName + "' is initialized multiple times", fi.ctx))
        else
          var tv :- Expression(env, frames, fi.value);
          var ok :- Compat(Some(m.paramType), tv.0);
          if !ok then Failure(Mismatch("Field '" + fi.fieldName + "' expects type , got ", fi.ctx))
          else
            var rest :- FieldInits(env, frames, members, structName, inits[1..], initialized + {fi.fieldName});
            Success((rest.0, [fi.(value := tv.1)] + rest.1))
  }

  /** The set of initialised names grows by exactly the accepted fields. */
  lemma {:induction false} FieldInitsNames(env: Env, frames: Scope, members: seq<Member>, structName: string, inits: seq<FieldInit>, initialized: set<string>)
    requires FieldInits(env, frames, members, structName, inits, initialized).Success?
    ensures FieldInits(env, frames, members, structName, inits, initialized).value.0
      == initialized + (set i | 0 <= i < |inits| :: inits[i].fieldName)
    decreases |inits|
  {
    if |inits| > 0 {
      FieldInitsStep(env, frames, members, structName, inits, initialized);
      var fi := inits[0];
      FieldInitsNames(env, frames, members, structName, inits[1..], initialized + {fi.fieldName});
      assert (set i | 0 <= i < |inits| :: inits[i].fieldName) == {fi.fieldName} + set i | 0 <= i < |inits[1..]| :: inits[1..][i].fieldName;
    }
  }

  /** `out` is what an accepted initialiser `fi` became: it names a known
      field not in `initialized`, keeps its name and has a value the field
      accepts. */
  predicate InitAccepted(members: seq<Member>, initialized: set<string>, fi: FieldInit, out: FieldInit)
  {
    && fi.fieldName !in initialized
    && LastMember(members, fi.fieldName).Some?
    && out.fieldName == fi.fieldName
    && Compat(Some(LastMember(members, fi.fieldName).value.paramType), TypeOf(out.value)) == Success(true)
  }

  /** Every accepted initialiser names a known field not initialised
      before, keeps its name and has a value the field accepts. */
  lemma {:induction false} FieldInitsChecked(env: Env, frames: Scope, members: seq<Member>, structName: string, inits: seq<FieldInit>, initialized: set<string>)
    requires FieldInits(env, frames, members, structName, inits, initialized).Success?
    ensures var r := FieldInits(env, frames, members, structName, inits, initialized).value;
      forall i :: 0 <= i < |inits| ==> InitAccepted(members, initialized, inits[i], r.1[i])
    decreases |inits|
  {
    if |inits| > 0 {
      FieldInitsStep(env, frames, members, structName, inits, initialized);
      var seen := initialized + {inits[0].fieldName};
      var out := FieldInits(env, frames, members, structName, inits, initialized).value.1;
      var rest := FieldInits(env, frames, members, structName, inits[1..], seen).value.1;
      FieldInitsChecked(env, frames, members, structName, inits[1..], seen);
      assert InitAccepted(members, initialized, inits[0], out[0]);
      InitsAcceptedShift(members, initialized, seen, inits, out, rest);
    }
  }

  /** Accepting the head against `initialized` and the tail against
      `initialized` plus the head's name accepts the whole list against
      `initialized`. */
  lemma InitsAcceptedShift(members: seq<Member>, initialized: set<string>, seen: set<string>, inits: seq<FieldInit>, out: seq<FieldInit>, rest: seq<FieldInit>)
    requires |inits| == |out| > 0 && out[1..] == rest
    requires initialized <= seen
    requires InitAccepted(members, initialized, inits[0], out[0])
    requires forall i :: 0 <= i < |rest| ==> InitAccepted(members, seen, inits[1..][i], rest[i])
    ensures forall i :: 0 <= i < |inits| ==> InitAccepted(members, initialized, inits[i], out[i])
  {
    forall i | 1 <= i < |inits|
      ensures InitAccepted(members, initialized, inits[i], out[i])
    {
      assert inits[i] == inits[1..][i - 1] && out[i] == out[1..][i - 1];
    }
  }

  /** No field is initialised twice, nor one initialised before. */
  lemma {:induction false} FieldInitsDistinct(env: Env, frames: Scope, members: seq<Member>, structName: string, inits: seq<FieldInit>, initialized: set<string>)
    requires FieldInits(env, frames, members, structName, inits, initialized).Success?
    ensures forall i :: 0 <= i < |inits| ==> inits[i].fieldName !in initialized
    ensures forall i, j :: 0 <= i < j < |inits| ==> inits[i].fieldName != inits[j].fieldName
    decreases |inits|
  {
    if |inits| > 0 {
      FieldInitsStep(env, frames, members, structName, inits, initialized);
      var rest := inits[1..];
      var seen := initialized + {inits[0].fieldName};
      FieldInitsDistinct(env, frames, members, structName, rest, seen);
      forall i | 1 <= i < |inits|
        ensures inits[i].fieldName !in seen
      {
        assert inits[i] == rest[i - 1];
      }
      forall i, j | 1 <= i < j < |inits|
        ensures inits[i].fieldName != inits[j].fieldName
      {
        assert inits[i] == rest[i - 1] && inits[j] == rest[j - 1];
      }
    }
  }

  /** Accepted field initialisers name known fields, each once and not one
      initialised before, with values their fields accept; the set of
      initialised names grows by exactly them. */
  lemma AcceptedFieldInits(env: Env, frames: Scope, members: seq<Member>, structName: string, inits: seq<FieldInit>, initialized: set<string>)
    requires FieldInits(env, frames, members, structName, inits, initialized).Success?
    ensures var r := FieldInits(env, frames, members, structName, inits, initialized).value;
      && r.0 == initialized + (set i | 0 <= i < |inits| :: inits[i].fieldName)
      && (forall i :: 0 <= i < |inits| ==>
            && inits[i].fieldName !in initialized
            && LastMember(members, inits[i].fieldName).Some?
            && r.1[i].fieldName == inits[i].fieldName
            && Compat(Some(LastMember(members, inits[i].fieldName).value.paramType), TypeOf(r.1[i].value)) == Success(true))
      && (forall i, j :: 0 <= i < j < |inits| ==> inits[i].fieldName != inits[j].fieldName)
  {
    FieldInitsNames(env, frames, members, structName, inits, initialized);
    FieldInitsChecked(env, frames, members, structName, inits, initialized);
    FieldInitsDistinct(env, frames, members, structName, inits, initialized);
  }

  /** An accepted list of field initialisers: its first one names a known
      field not initialised before, with a value the field accepts, and the
      rest was accepted too. */
  lemma FieldInitsStep(env: Env, frames: Scope, members: seq<Member>, structName: string, inits: seq<FieldInit>, initialized: set<string>)
    requires |inits| > 0
    requires FieldInits(env, frames, members, structName, inits, initialized).Success?
    ensures var fi := inits[0];
      var tv := Expression(env, frames, fi.value);
      var rest := FieldInits(env, frames, members, structName, inits[1..], initialized + {fi.fieldName});
      && LastMember(members, fi.fieldName).Some?
      && fi.fieldName !in initialized
      && tv.Success?
      && Compat(Some(LastMember(members, fi.fieldName).value.paramType), tv.value.0) == Success(true)
      && rest.Success?
      && FieldInits(env, frames, members, structName, inits, initialized).value
         == (rest.value.0, [fi.(value := tv.value.1)] + rest.value.1)
  {
  }

  /** An accepted struct initialiser names known fields of the struct, each
      once, and initialises every enum field that has no default value. */
  lemma AcceptedStructInitialization(env: Env, frames: Scope, ctx: ParseContext, name: string, inits: seq<FieldInit>)
    requires StructInitialization(env, frames, ctx, name, inits).Success?
    ensures FindStruct(env.g.structs, name).Some?
    ensures var members := FindStruct(env.g.structs, name).value.members;
      && (forall i :: 0 <= i < |inits| ==> LastMember(members, inits[i].fieldName).Some?)
      && (forall i, j :: 0 <= i < j < |inits| ==> inits[i].fieldName != inits[j].fieldName)
      && (forall m :: m in members && m.defaultValue.None? && m.paramType.Enum? ==>
            exists i :: 0 <= i < |inits| && inits[i].fieldName == m.name)
  {
    var st := FindStruct(env.g.structs, name).value;
    var fi := FieldInits(env, frames, st.members, name, inits, {}).value;
    AcceptedFieldInits(env, frames, st.members, name, inits, {});
    assert FirstMissingEnumField(st.members, fi.0).None?;
    forall m | m in st.members && m.defaultValue.None? && m.paramType.Enum?
      ensures exists i :: 0 <= i < |inits| && inits[i].fieldName == m.name
    {
      assert m.name in fi.0;
    }
  }

  // ---------------------------------------------------------------------
  // Statements (Typeifier.statements / statement).

  /** Statement checking changed nothing but the innermost frame, and left
      the loop flag as it found it. */
  predicate InnermostOnly(before: State, after: State)
    requires |before.frames| > 0
  {
    && |after.frames| == |before.frames|
    && after.frames[..|before.frames| - 1] == before.frames[..|before.frames| - 1]
    && after.insideLoop == before.insideLoop
  }

  /** push_scope, the statements of a body, pop_scope. */
  function Block(env: Env, st: State, body: seq<Stmt>): (r: Result<(State, seq<Stmt>), Error>)
    ensures r.Success? ==> r.value.0 == st && |r.value.1| == |body|
    decreases body, 1
  {
    var inner :- CheckStatements(env, st.(frames := st.frames + [map[]]), body);
    // The pushed frame is still there: pop_scope cannot fail here.
    Success((inner.0.(frames := inner.0.frames[..|inner.0.frames| - 1]), inner.1))
  }

  /** Typeifier.statements (86-88). */
  function CheckStatements(env: Env, st: State, ss: seq<Stmt>): (r: Result<(State, seq<Stmt>), Error>)
    ensures r.Success? ==> |r.value.1| == |ss|
    ensures r.Success? && |st.frames| > 0 ==> InnermostOnly(st, r.value.0)
    decreases ss, 0
  {
    if |ss| == 0 then Success((st, []))
    else
      var first :- CheckStatement(env, st, ss[0]);
      var rest :- CheckStatements(env, first.0, ss[1..]);
      Success((rest.0, [first.1] + rest.1))
  }

  /** One elif of the If case (167-179): a bool condition, then its body. */
  function CheckElif(env: Env, st: State, el: Elif): (r: Result<(State, Elif), Error>)
    ensures r.Success? ==> r.value.0 == st && r.value.1.ctx == el.ctx
    ensures r.Success? ==> TypeOf(r.value.1.cond) == Some(Primitive(BOOL)) && |r.value.1.body| == |el.body|
    decreases el, 2
  {
    var tc :- Expression(env, st.frames, el.cond);
    var ct :- RequireType(tc.0);
    if ct != Primitive(BOOL) then Failure(Mismatch("Elif statement expression is not bool", ContextOf(el.cond)))
    else
      var b :- Block(env, st, el.body);
      Success((b.0, Elif(el.ctx, tc.1, b.1)))
  }

  /** The elif loop of the If case (167-179). */
  function CheckElifs(env: Env, st: State, elifs: seq<Elif>): (r: Result<(State, seq<Elif>), Error>)
    ensures r.Success? ==> |r.value.1| == |elifs|
    ensures r.Success? ==> r.value.0 == st
    ensures r.Success? ==> forall i :: 0 <= i < |elifs| ==> TypeOf(r.value.1[i].cond) == Some(Primitive(BOOL))
    decreases elifs, 0
  {
    if |elifs| == 0 then Success((st, []))
    else
      var first :- CheckElif(env, st, elifs[0]);
      var rest :- CheckElifs(env, first.0, elifs[1..]);
      Success((rest.0, [first.1] + rest.1))
  }

  /** The if case of Typeifier.statement (151-179): the condition, the
      body, the else branch, then every elif, each block in a scope of its
      own. */
  function CheckIf(env: Env, st: State, s: Stmt): (r: Result<(State, Stmt), Error>)
    requires s.If?
    ensures r.Success? ==> r.value.0 == st && r.value.1.If?
    ensures r.Success? ==>
      && TypeOf(r.value.1.cond) == Some(Primitive(BOOL))
      && |r.value.1.elifs| == |s.elifs|
      && forall i :: 0 <= i < |s.elifs| ==> TypeOf(r.value.1.elifs[i].cond) == Some(Primitive(BOOL))
    decreases s, 1
  {
    var tc :- Expression(env, st.frames, s.cond);
    var ct :- RequireType(tc.0);
    if ct != Primitive(BOOL) then Failure(Mismatch("If statement expression is not bool", ContextOf(s.cond)))
    else
      var b :- Block(env, st, s.body);
      var e :-
        match s.elseBranch
        case None => Success((b.0, None))
        case Some(eb) =>
          var x :- Block(env, b.0, eb.body);
          Success((x.0, Some(Else(eb.ctx, x.1))));
      var el :- CheckElifs(env, e.0, s.elifs);
      Success((el.0, If(s.ctx, tc.1, b.1, el.1, e.1)))
  }

  /** Typeifier.statement (90-200). */
  function CheckStatement(env: Env, st: State, s: Stmt): (r: Result<(State, Stmt), Error>)
    ensures r.Success? && |st.frames| > 0 ==> InnermostOnly(st, r.value.0)
    ensures r.Success? && (s.Loop? || s.If?) ==> r.value.0 == st
    ensures r.Success? && !(s.Decl? || s.Def?) ==> r.value.0 == st
    decreases s, 2
  {
    match s
    case Decl(ctx, name, vt) =>
      var t :- Typeify(vt, env.g);
      var frames :- Define(st.frames, name, Binding(t, false), ctx);
      Success((st.(frames := frames), Decl(ctx, name, t)))
    case Def(ctx, name, vt, value, isConst) =>
      var t :- Typeify(vt, env.g);
      var frames :- Define(st.frames, name, Binding(t, isConst), ctx);
      var tv :- Expression(env, frames, value);
      var ok :- Compat(Some(t), tv.0);
      if !ok then Failure(Mismatch("Incompatible value type", ctx))
      else Success((st.(frames := frames), Def(ctx, name, t, tv.1, isConst)))
    case Assign(ctx, target, value) =>
      var tv :- Expression(env, st.frames, value);
      var tt :- Expression(env, st.frames, Access(target));
      if tt.0.None? then Failure(Context("Unknown variable " + target.name, ctx))
      else
        var ok :- Compat(tt.0, tv.0);
        if !ok then Failure(Mismatch("Incompatible value type", ctx))
        else if IsConstVariable(st.frames, target.name) then Failure(Context("Cannot assign " + target.name + ", variable is const", ctx))
        else Success((st, Assign(ctx, tt.1.access, tv.1)))
    case CallStmt(c) =>
      var tc :- FunctionCallType(env, st.frames, c);
      Success((st, CallStmt(tc.1)))
    case AccessStmt(a) =>
      if Innermost(a).methodCall.None? then
        Failure(Context("Variable access as statement must end with a method call", a.ctx))
      else
        var ta :- VariableAccessType(env, st.frames, a);
        Success((st, AccessStmt(ta.1)))
    case Loop(ctx, body) =>
      var inner :- Block(env, st.(insideLoop := true), body);
      Success((State(inner.0.frames, if st.insideLoop then inner.0.insideLoop else false), Loop(ctx, inner.1)))
    case If(_, _, _, _, _) => CheckIf(env, st, s)
    case Return(ctx, rv) =>
      if rv.None? then Success((st, s))
      else if env.fn.returnType.None? then Failure(Context("Function has no return type: " + env.fn.name, ctx))
      else
        var tv :- Expression(env, st.frames, rv.value);
        var ok :- Compat(env.fn.returnType, tv.0);
        if !ok then Failure(Context("Returned value is incompatible with function return type", ctx))
        else Success((st, Return(ctx, Some(tv.1))))
    case Continue(ctx) =>
      if !st.insideLoop then Failure(Context("Continue outside loop", ctx)) else Success((st, s))
    case Break(ctx) =>
      if !st.insideLoop then Failure(Context("Break outside loop", ctx)) else Success((st, s))
  }

  // ---------------------------------------------------------------------
  // The driver (validation_pass, 676-728).

  /** Typeifier.__init__ (75-84): each parameter is defined in the base
      frame, const unless it is a reference parameter. */
  function DefineParams(frames: Scope, params: seq<Param>): (r: Result<Scope, Error>)
    requires |frames| > 0
    ensures r.Success? ==> |r.value| == |frames|
    ensures r.Success? ==> r.value[..|frames| - 1] == frames[..|frames| - 1]
    decreases params
  {
    if |params| == 0 then Success(frames)
    else
      var p := params[0];
      var next :- Define(frames, p.name, Binding(p.paramType, !p.reference), p.ctx);
      DefineParams(next, params[1..])
  }

  /** One parameter step: the first `Define` either fails, and so does the
      whole run with its error, or the rest are bound on top of it. */
  lemma DefineParamsStep(frames: Scope, params: seq<Param>)
    requires |frames| > 0 && |params| > 0
    ensures var p := params[0];
      var d := Define(frames, p.name, Binding(p.paramType, !p.reference), p.ctx);
      && (d.Failure? ==> DefineParams(frames, params) == Failure(d.error))
      && (d.Success? ==> DefineParams(frames, params) == DefineParams(d.value, params[1..]))
  {
  }

  /** Binding the parameters keeps every binding the base frame held. */
  lemma {:induction false} ParamsKeepBaseFrame(frames: Scope, params: seq<Param>)
    requires |frames| > 0
    requires DefineParams(frames, params).Success?
    ensures frames[|frames| - 1].Items <= DefineParams(frames, params).value[|frames| - 1].Items
    decreases params
  {
    if |params| > 0 {
      var p := params[0];
      var b := Binding(p.paramType, !p.reference);
      var next := Define(frames, p.name, b, p.ctx).value;
      assert frames[|frames| - 1].Items <= next[|frames| - 1].Items;
      ParamsKeepBaseFrame(next, params[1..]);
    }
  }

  /** A parameter is visible in `frames` with its declared type, const
      unless it is passed by reference. */
  predicate ParamBound(frames: Scope, p: Param)
  {
    Lookup(frames, p.name) == Some(Binding(p.paramType, !p.reference))
  }

  /** The first parameter is bound by its own `Define`, and the later ones
      cannot remove it from the base frame. */
  lemma FirstParamBound(frames: Scope, params: seq<Param>)
    requires |frames| > 0 && |params| > 0
    requires DefineParams(frames, params).Success?
    ensures ParamBound(DefineParams(frames, params).value, params[0])
  {
    var p := params[0];
    var b := Binding(p.paramType, !p.reference);
    var next := Define(frames, p.name, b, p.ctx).value;
    ParamsKeepBaseFrame(next, params[1..]);
    assert (p.name, b) in next[|frames| - 1].Items;
    InnermostLookup(DefineParams(next, params[1..]).value, p.name, b);
  }

  /** Every parameter is bound in the base frame, const unless it is a
      reference parameter. */
  lemma {:induction false} ParamsAreBound(frames: Scope, params: seq<Param>)
    requires |frames| > 0
    requires DefineParams(frames, params).Success?
    ensures forall i :: 0 <= i < |params| ==> ParamBound(DefineParams(frames, params).value, params[i])
    decreases params
  {
    if |params| > 0 {
      var p := params[0];
      var next := Define(frames, p.name, Binding(p.paramType, !p.reference), p.ctx).value;
      ParamsAreBound(next, params[1..]);
      FirstParamBound(frames, params);
      ShiftedIndex(params, p, params[1..]);
    }
  }

  /** A Typeifier run over one function body; errors are not yet tagged. */
  function CheckFunction(g: GlobalScope, f: Function): (r: Result<Function, Error>)
    ensures r.Success? ==> r.value.(body := f.body) == f && |r.value.body| == |f.body|
  {
    var frames :- DefineParams([map[]], f.params);
    var checked :- CheckStatements(Env(g, f), State(frames, false), f.body);
    Success(f.(body := checked.1))
  }

  /** The type of a member's default value (680-695): a constant's type or
      an enum member's type; anything else is rejected. */
  function DefaultValueType(g: GlobalScope, dv: Expr): (r: Result<VarType, Error>)
    ensures dv.Const? ==> r == ConstantType(dv.ctx, dv.lit)
    ensures dv.Access? && r.Success? ==> EnumType(dv.access, g) == Success(Some(r.value))
    ensures !dv.Const? && !dv.Access? ==> r == Failure(Context("Invalid default value type: ", ContextOf(dv)))
  {
    match dv
    case Const(_, ctx, lit) => ConstantType(ctx, lit)
    case Access(a) =>
      var en :- EnumType(a, g);
      if en.None? then Failure(Context("Unknown enum type: " + a.name, a.ctx))
      else Success(en.value)
    case _ => Failure(Context("Invalid default value type: ", ContextOf(dv)))
  }

  /** `member.default_value.type = value_type` (701). */
  function WithType(e: Expr, t: VarType): (r: Expr)
    ensures TypeOf(r) == Some(t) && ContextOf(r) == ContextOf(e)
  {
    match e
    case Access(a) => Access(a.(ty := Some(t)))
    case Call(c) => Call(c.(ty := Some(t)))
    case Const(_, ctx, lit) => Const(Some(t), ctx, lit)
    case Math(_, ctx, a, b, op) => Math(Some(t), ctx, a, b, op)
    case Compare(_, ctx, a, b, op) => Compare(Some(t), ctx, a, b, op)
    case Unary(_, ctx, a, op) => Unary(Some(t), ctx, a, op)
    case StructInit(_, ctx, n, inits) => StructInit(Some(t), ctx, n, inits)
  }

  /** One struct member in the first phase of the driver (678-708). */
  function ResolveMember(g: GlobalScope, structName: string, m: Member): (r: Result<Member, Error>)
    ensures r.Success? ==> r.value.name == m.name && r.value.ctx == m.ctx && IsResolved(r.value.paramType)
    ensures r.Success? ==> Typeify(m.paramType, g) == Success(r.value.paramType)
    ensures r.Success? && m.defaultValue.Some? ==>
      r.value.defaultValue.Some? && TypeOf(r.value.defaultValue.value).Some?
      && Compatible(r.value.paramType, TypeOf(r.value.defaultValue.value).value)
  {
    var t :- Typeify(m.paramType, g);
    match m.defaultValue
    case None =>
      if t.Enum? then Failure(Context("Enum field '" + m.name + "' in struct '" + structName + "' must have a default value", m.ctx))
      else Success(m.(paramType := t))
    case Some(dv) =>
      var vt :- DefaultValueType(g, dv);
      var ok :- IsTypeCompatible(t, vt);
      if !ok then Failure(Mismatch("Default value type mismatch for struct member " + m.name, ContextOf(dv)))
      else Success(m.(paramType := t, defaultValue := Some(WithType(dv, vt))))
  }

  function ResolveMembers(g: GlobalScope, structName: string, members: seq<Member>): (r: Result<seq<Member>, Error>)
    ensures r.Success? ==> |r.value| == |members|
    ensures r.Success? ==> forall i :: 0 <= i < |members| ==> ResolveMember(g, structName, members[i]) == Success(r.value[i])
  {
    if |members| == 0 then Success([])
    else
      var m :- ResolveMember(g, structName, members[0]);
      var rest :- ResolveMembers(g, structName, members[1..]);
      Success([m] + rest)
  }

  /** The members of one struct, in declaration order. */
  function ResolveStruct(g: GlobalScope, s: StructType): (r: Result<StructType, Error>)
    ensures r.Success? ==> r.value == s.(members := r.value.members)
    ensures r.Success? <==> ResolveMembers(g, s.name, s.members).Success?
    ensures r.Success? ==> ResolveMembers(g, s.name, s.members) == Success(r.value.members)
  {
    var ms :- ResolveMembers(g, s.name, s.members);
    Success(s.(members := ms))
  }

  function ResolveStructs(g: GlobalScope, structs: seq<StructType>): (r: Result<seq<StructType>, Error>)
    ensures r.Success? ==> |r.value| == |structs|
    ensures r.Success? ==> forall i :: 0 <= i < |structs| ==> ResolveStruct(g, structs[i]) == Success(r.value[i])
  {
    if |structs| == 0 then Success([])
    else
      var s :- ResolveStruct(g, structs[0]);
      var rest :- ResolveStructs(g, structs[1..]);
      Success([s] + rest)
  }

  /** The second phase of the driver (710-718): return type, then parameters. */
  function ResolveParams(g: GlobalScope, params: seq<Param>): (r: Result<seq<Param>, Error>)
    ensures r.Success? ==> |r.value| == |params|
    ensures r.Success? ==> forall i :: 0 <= i < |params| ==>
      r.value[i] == params[i].(paramType := r.value[i].paramType) && Typeify(params[i].paramType, g) == Success(r.value[i].paramType)
  {
    if |params| == 0 then Success([])
    else
      var t :- Typeify(params[0].paramType, g);
      var rest :- ResolveParams(g, params[1..]);
      Success([params[0].(paramType := t)] + rest)
  }

  function ResolveSignature(g: GlobalScope, f: Function): (r: Result<Function, Error>)
    ensures r.Success? ==> r.value.name == f.name && r.value.body == f.body && r.value.ctx == f.ctx
    ensures r.Success? ==> (r.value.returnType.Some? <==> f.returnType.Some?)
    ensures r.Success? && f.returnType.Some? ==> Typeify(f.returnType.value, g) == Success(r.value.returnType.value)
  {
    var rt :-
      match f.returnType
      case None => Success(None)
      case Some(t) =>
        var u :- Typeify(t, g);
        Success(Some(u));
    var ps :- ResolveParams(g, f.params);
    Success(f.(returnType := rt, params := ps))
  }

  function ResolveSignatures(g: GlobalScope, fs: seq<Function>): (r: Result<seq<Function>, Error>)
    ensures r.Success? ==> |r.value| == |fs|
    ensures r.Success? ==> forall i :: 0 <= i < |fs| ==> ResolveSignature(g, fs[i]) == Success(r.value[i])
  {
    if |fs| == 0 then Success([])
    else
      var f :- ResolveSignature(g, fs[0]);
      var rest :- ResolveSignatures(g, fs[1..]);
      Success([f] + rest)
  }

  /** The third phase (720-728): every body in order; a ContextException is
      tagged with the function it was raised in. */
  function CheckBodies(g: GlobalScope, fs: seq<Function>): (r: Result<seq<Function>, Error>)
    ensures r.Success? ==> |r.value| == |fs|
    ensures r.Success? ==> forall i :: 0 <= i < |fs| ==> CheckFunction(g, fs[i]) == Success(r.value[i])
  {
    if |fs| == 0 then Success([])
    else
      match CheckFunction(g, fs[0])
      case Failure(e) => Failure(TagWithFunction(e, fs[0].name, fs[0].ctx))
      case Success(f) =>
        var rest :- CheckBodies(g, fs[1..]);
        Success([f] + rest)
  }

  /** validation_pass (676-728): structs, then signatures, then bodies; the
      first phase that fails gives the error, and an accepted program keeps
      its enums and the number of its structs and functions. */
  function ValidationPass(g: GlobalScope): (r: Result<GlobalScope, Error>)
    ensures ResolveStructs(g, g.structs).Failure? ==> r == Failure(ResolveStructs(g, g.structs).error)
    ensures var rs := ResolveStructs(g, g.structs);
      rs.Success? && ResolveSignatures(g.(structs := rs.value), g.functions).Failure? ==>
        r == Failure(ResolveSignatures(g.(structs := rs.value), g.functions).error)
    ensures r.Success? ==>
      && r.value.enums == g.enums
      && |r.value.structs| == |g.structs| && |r.value.functions| == |g.functions|
  {
    var structs :- ResolveStructs(g, g.structs);
    var g1 := g.(structs := structs);
    var functions :- ResolveSignatures(g1, g1.functions);
    var g2 := g1.(functions := functions);
    var bodies :- CheckBodies(g2, g2.functions);
    Success(g2.(functions := bodies))
  }
}

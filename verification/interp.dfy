/**
 * The tree-walking interpreter (xlang/interpreter.py) of this snapshot:
 * only constants, the five arithmetic operators and calls of user and
 * builtin functions run; every other construct raises. Expression
 * evaluation is pure; statement execution is a class that swaps and
 * restores its scope stack around each user call.
 */
module Interp {
  import opened Wrappers
  import opened Ast
  import opened Exceptions
  import opened Runtime
  import opened Builtins
  import Types
  import Scopes
  import Check
  import CheckProps

  /** The operators `expression` evaluates (interpreter.py:87). */
  const ArithOperators: set<string> := {"+", "-", "*", "/", "%"}

  const NotSupported := "+ operator not supported on type"
  const FloatIntMix := "+ operator only works beween int types or float, not float and int."
  const RecursionLimit := "RecursionError: maximum recursion depth exceeded"

  /** The `value` a Constant node carries. */
  function LiteralPayload(lit: Literal): (p: Payload)
  {
    match lit
    case IntLit(i) => IntV(i)
    case FloatLit(x) => FloatV(x)
    case StrLit(s) => StrV(s)
    case BoolLit(b) => BoolV(b)
    case CharLit(c) => CharV(c)
  }

  /** value_from_constant (110-111): a primitive, non-array Value holding
      the literal and the tag the validator resolved; a node the validator
      never typed has no `.primitive_type` to read. */
  function ValueFromConstant(ty: Option<VarType>, lit: Literal): (r: Result<Value, Error>)
    ensures r.Success? <==> ty.Some?
    ensures r.Success? ==>
      && r.value.kind == PRIMITIVE && !r.value.isArray && r.value.typeName.None?
      && r.value.payload == LiteralPayload(lit)
      && r.value.primitiveType == PrimitiveOf(ty.value)
  {
    if ty.None? then Failure(Internal("'NoneType' object has no attribute 'primitive_type'"))
    else Success(Value(PRIMITIVE, LiteralPayload(lit), PrimitiveOf(ty.value), false, None))
  }

  /** The operand test of lines 88 and 90. */
  predicate IsNumberOperand(v: Value)
  {
    && v.kind == PRIMITIVE
    && v.primitiveType.Some?
    && v.primitiveType.value in NumberTypes
    && !v.isArray
  }

  /** Line 92 as written: `and` binds tighter than `or`, so any FLOAT left
      operand is rejected, FLOAT with FLOAT included. */
  predicate FloatGuardAsWritten(p1: Option<PrimitiveType>, p2: Option<PrimitiveType>)
  {
    p1 == Some(FLOAT) || (p2 == Some(FLOAT) && p1 != p2)
  }

  /** Line 92 as its message intends: reject exactly the mixes of FLOAT with
      another tag. */
  predicate FloatGuard(p1: Option<PrimitiveType>, p2: Option<PrimitiveType>)
  {
    (p1 == Some(FLOAT) || p2 == Some(FLOAT)) && p1 != p2
  }

  /** The intended guard rejects a pair iff exactly one side is FLOAT. */
  lemma FloatGuardRejectsExactlyTheMixes(p1: Option<PrimitiveType>, p2: Option<PrimitiveType>)
    ensures FloatGuard(p1, p2) <==> (p1 == Some(FLOAT)) != (p2 == Some(FLOAT))
  {
  }

  /** The two guards differ only on FLOAT with FLOAT, which the guard as
      written rejects and the intended one accepts. */
  lemma FloatGuardAsWrittenRejectsFloatPair(p1: Option<PrimitiveType>, p2: Option<PrimitiveType>)
    ensures FloatGuardAsWritten(Some(FLOAT), Some(FLOAT))
    ensures !FloatGuard(Some(FLOAT), Some(FLOAT))
    ensures (p1, p2) != (Some(FLOAT), Some(FLOAT)) ==> (FloatGuardAsWritten(p1, p2) <==> FloatGuard(p1, p2))
  {
  }

  /** The arithmetic of lines 94-103 on the operand payloads. Integers use
      Python's floor `//` and `%`; a float on either side makes the
      operation a float one, modelled on exact reals. A zero divisor is a
      ZeroDivisionError of the host. */
  function Arith(op: string, a: Payload, b: Payload): (r: Result<Payload, Error>)
    requires op in ArithOperators
    ensures a.IntV? && b.IntV? ==> (r.Failure? <==> (op == "/" || op == "%") && b.i == 0)
    ensures a.IntV? && b.IntV? && r.Success? ==> r.value.IntV?
    ensures a.IntV? && b.IntV? && op == "/" && b.i != 0 ==> r == Success(IntV(Check.FloorDiv(a.i, b.i)))
    ensures a.IntV? && b.IntV? && op == "%" && b.i != 0 ==> r == Success(IntV(Check.FloorMod(a.i, b.i)))
    ensures !((a.IntV? || a.FloatV?) && (b.IntV? || b.FloatV?)) ==> r.Failure? && r.error.Internal?
  {
    if a.IntV? && b.IntV? then
      if op == "+" then Success(IntV(a.i + b.i))
      else if op == "-" then Success(IntV(a.i - b.i))
      else if op == "*" then Success(IntV(a.i * b.i))
      else if b.i == 0 then Failure(Internal("ZeroDivisionError: integer division or modulo by zero"))
      else if op == "/" then Success(IntV(Check.FloorDiv(a.i, b.i)))
      else Success(IntV(Check.FloorMod(a.i, b.i)))
    else if (a.IntV? || a.FloatV?) && (b.IntV? || b.FloatV?) then
      var x := if a.IntV? then a.i as real else a.r;
      var y := if b.IntV? then b.i as real else b.r;
      if op == "+" then Success(FloatV(x + y))
      else if op == "-" then Success(FloatV(x - y))
      else if op == "*" then Success(FloatV(x * y))
      else if y == 0.0 then Failure(Internal("ZeroDivisionError: float floor division by zero"))
      else if op == "/" then Success(FloatV((x / y).Floor as real))
      else Success(FloatV(x - y * (x / y).Floor as real))
    else Failure(Internal("TypeError: unsupported operand type(s)"))
  }

  /** Lines 88-104 once both operands are evaluated, with the FLOAT guard
      passed in: the operand checks, the guard, the arithmetic and the
      result tagged with the node's own type. */
  function ApplyWith(guardRejects: bool, op: string, v1: Value, v2: Value, ty: Option<VarType>): (r: Result<Value, Error>)
    requires op in ArithOperators
    ensures !IsNumberOperand(v1) || !IsNumberOperand(v2) ==> r == Failure(Runtime(NotSupported))
    ensures IsNumberOperand(v1) && IsNumberOperand(v2) && guardRejects ==> r == Failure(Runtime(FloatIntMix))
    ensures r.Success? ==>
      && IsNumberOperand(v1) && IsNumberOperand(v2) && !guardRejects
      && ty.Some?
      && Arith(op, v1.payload, v2.payload).Success?
      && r.value == Value(PRIMITIVE, Arith(op, v1.payload, v2.payload).value, PrimitiveOf(ty.value), false, None)
  {
    if !IsNumberOperand(v1) || !IsNumberOperand(v2) then Failure(Runtime(NotSupported))
    else if guardRejects then Failure(Runtime(FloatIntMix))
    else
      var p :- Arith(op, v1.payload, v2.payload);
      if ty.None? then Failure(Internal("'NoneType' object has no attribute 'primitive_type'"))
      else Success(Value(PRIMITIVE, p, PrimitiveOf(ty.value), false, None))
  }

  /** The operator step exactly as written, with the guard of line 92 as
      the code has it; the evaluator uses this one. Non-numeric operands
      are "not supported", a pair the guard as written rejects is the
      mixing error, and a success is the payload arithmetic tagged with
      the node's type. No FLOAT operand on either side ever succeeds. */
  function ApplyArithAsWritten(op: string, v1: Value, v2: Value, ty: Option<VarType>): (r: Result<Value, Error>)
    requires op in ArithOperators
    ensures !IsNumberOperand(v1) || !IsNumberOperand(v2) ==> r == Failure(Runtime(NotSupported))
    ensures IsNumberOperand(v1) && IsNumberOperand(v2) && FloatGuardAsWritten(v1.primitiveType, v2.primitiveType) ==>
      r == Failure(Runtime(FloatIntMix))
    ensures r.Success? ==>
      && IsNumberOperand(v1) && IsNumberOperand(v2)
      && v1.primitiveType != Some(FLOAT) && v2.primitiveType != Some(FLOAT)
      && ty.Some?
      && Arith(op, v1.payload, v2.payload).Success?
      && r.value == Value(PRIMITIVE, Arith(op, v1.payload, v2.payload).value, PrimitiveOf(ty.value), false, None)
  {
    ApplyWith(FloatGuardAsWritten(v1.primitiveType, v2.primitiveType), op, v1, v2, ty)
  }

  /** The operator step with the intended guard of line 92. It succeeds only on two numeric non-array operands that are
      both FLOAT or both integers, and the result is a plain primitive
      tagged with the node's type. */
  function ApplyArith(op: string, v1: Value, v2: Value, ty: Option<VarType>): (r: Result<Value, Error>)
    requires op in ArithOperators
    ensures !IsNumberOperand(v1) || !IsNumberOperand(v2) ==> r == Failure(Runtime(NotSupported))
    ensures IsNumberOperand(v1) && IsNumberOperand(v2) && FloatGuard(v1.primitiveType, v2.primitiveType) ==>
      r == Failure(Runtime(FloatIntMix))
    ensures r.Success? ==>
      && IsNumberOperand(v1) && IsNumberOperand(v2)
      && (v1.primitiveType == Some(FLOAT) <==> v2.primitiveType == Some(FLOAT))
      && ty.Some?
      && Arith(op, v1.payload, v2.payload).Success?
      && r.value == Value(PRIMITIVE, Arith(op, v1.payload, v2.payload).value, PrimitiveOf(ty.value), false, None)
  {
    ApplyWith(FloatGuard(v1.primitiveType, v2.primitiveType), op, v1, v2, ty)
  }

  /** Two FLOAT operands: the code as written raises the mixing error,
      the intended guard lets the sum through. */
  lemma FloatPlusFloatRejectedAsWritten(ctx: ParseContext)
    ensures var one := Value(PRIMITIVE, FloatV(1.0), Some(FLOAT), false, None);
      var two := Value(PRIMITIVE, FloatV(2.0), Some(FLOAT), false, None);
      && ApplyArithAsWritten("+", one, two, Some(Primitive(FLOAT))) == Failure(Runtime(FloatIntMix))
      && ApplyArith("+", one, two, Some(Primitive(FLOAT))) == Success(Value(PRIMITIVE, FloatV(3.0), Some(FLOAT), false, None))
    ensures var f := Some(Primitive(FLOAT));
      EvalExpr(Math(f, ctx, Const(f, ctx, FloatLit(1.0)), Const(f, ctx, FloatLit(2.0)), "+")) == Failure(Runtime(FloatIntMix))
  {
    assert FLOAT in NumberTypes;
  }

  /** `expression` (77-108). OperatorExpression is read as the two binary
      node kinds, math and comparison; operand 1 is evaluated before
      operand 2, and both before the operator is looked at. */
  function EvalExpr(e: Expr): (r: Result<Value, Error>)
    ensures e.Const? ==> r == ValueFromConstant(e.ty, e.lit)
    ensures r.Success? ==> r.value.kind == PRIMITIVE && !r.value.isArray && r.value.typeName.None?
    ensures r.Success? ==> e.Const? || ((e.Math? || e.Compare?) && e.operator in ArithOperators && e.ty.Some?)
    ensures r.Success? && !e.Const? ==> r.value.primitiveType == PrimitiveOf(e.ty.value)
    ensures (e.Math? || e.Compare?) && EvalExpr(e.op1).Failure? ==> r == Failure(EvalExpr(e.op1).error)
    decreases e
  {
    match e
    case Call(_) => Failure(Runtime("not implemented"))
    case Access(_) => Failure(Runtime("not implemented"))
    case Const(ty, _, lit) => ValueFromConstant(ty, lit)
    case Math(ty, _, a, b, op) =>
      var v1 :- EvalExpr(a);
      var v2 :- EvalExpr(b);
      if op in ArithOperators then ApplyArithAsWritten(op, v1, v2, ty)
      else Failure(Runtime("unimplemented operator: " + op))
    case Compare(ty, _, a, b, op) =>
      var v1 :- EvalExpr(a);
      var v2 :- EvalExpr(b);
      if op in ArithOperators then ApplyArithAsWritten(op, v1, v2, ty)
      else Failure(Runtime("unimplemented operator: " + op))
    case _ => Failure(Runtime("Unknown expression"))
  }

  /** An operator node evaluates only if both operands do, to numeric
      non-array values neither of which is FLOAT (the guard as written),
      and its value is the arithmetic of their payloads. */
  lemma ArithmeticNeedsNumbers(e: Expr)
    requires e.Math? || e.Compare?
    requires EvalExpr(e).Success?
    ensures EvalExpr(e.op1).Success? && EvalExpr(e.op2).Success?
    ensures var v1 := EvalExpr(e.op1).value; var v2 := EvalExpr(e.op2).value;
      && IsNumberOperand(v1) && IsNumberOperand(v2)
      && v1.primitiveType != Some(FLOAT) && v2.primitiveType != Some(FLOAT)
      && Arith(e.operator, v1.payload, v2.payload).Success?
      && EvalExpr(e).value.payload == Arith(e.operator, v1.payload, v2.payload).value
  {
  }

  /** Integer `/` and `%` are Python's floor division and modulo: the
      quotient and remainder recombine to the dividend and the remainder
      has the divisor's sign; the tag is the node's own type. */
  lemma IntegerDivisionFloors(ty: VarType, ctx: ParseContext, a: Expr, b: Expr, x: int, y: int, t1: PrimitiveType, t2: PrimitiveType)
    requires EvalExpr(a) == Success(Value(PRIMITIVE, IntV(x), Some(t1), false, None))
    requires EvalExpr(b) == Success(Value(PRIMITIVE, IntV(y), Some(t2), false, None))
    requires t1 in IntegerTypes && t2 in IntegerTypes && y != 0
    ensures var q := EvalExpr(Math(Some(ty), ctx, a, b, "/"));
      var m := EvalExpr(Math(Some(ty), ctx, a, b, "%"));
      && q.Success? && m.Success?
      && q.value.payload.IntV? && m.value.payload.IntV?
      && x == y * q.value.payload.i + m.value.payload.i
      && (y > 0 ==> 0 <= m.value.payload.i < y)
      && (y < 0 ==> y < m.value.payload.i <= 0)
      && q.value.primitiveType == PrimitiveOf(ty) && m.value.primitiveType == PrimitiveOf(ty)
  {
    var v1 := EvalExpr(a).value;
    var v2 := EvalExpr(b).value;
    MathStep(Some(ty), ctx, a, b, "/");
    MathStep(Some(ty), ctx, a, b, "%");
    IntegerOperands(v1, v2, x, y, t1, t2, "/", Some(ty));
    IntegerOperands(v1, v2, x, y, t1, t2, "%", Some(ty));
    CheckProps.FloorDivMod(x, y);
  }

  /** An operator node whose operands evaluate applies the operator step
      to their values. */
  lemma MathStep(ty: Option<VarType>, ctx: ParseContext, a: Expr, b: Expr, op: string)
    requires EvalExpr(a).Success? && EvalExpr(b).Success? && op in ArithOperators
    ensures EvalExpr(Math(ty, ctx, a, b, op)) == ApplyArithAsWritten(op, EvalExpr(a).value, EvalExpr(b).value, ty)
  {
  }

  /** Two integer-tagged values pass the operand checks and the guard, so
      the operator step is the integer arithmetic tagged with the node's
      type. */
  lemma IntegerOperands(v1: Value, v2: Value, x: int, y: int, t1: PrimitiveType, t2: PrimitiveType, op: string, ty: Option<VarType>)
    requires v1 == Value(PRIMITIVE, IntV(x), Some(t1), false, None)
    requires v2 == Value(PRIMITIVE, IntV(y), Some(t2), false, None)
    requires t1 in IntegerTypes && t2 in IntegerTypes && op in ArithOperators && ty.Some?
    requires Arith(op, IntV(x), IntV(y)).Success?
    ensures ApplyArithAsWritten(op, v1, v2, ty) == Success(Value(PRIMITIVE, Arith(op, IntV(x), IntV(y)).value, PrimitiveOf(ty.value), false, None))
  {
    NumberTypesAddOnlyFloat(t1);
    NumberTypesAddOnlyFloat(t2);
    IntegerTypesAreTheEightWidths(t1);
    IntegerTypesAreTheEightWidths(t2);
    assert IsNumberOperand(v1) && IsNumberOperand(v2);
    assert !FloatGuardAsWritten(v1.primitiveType, v2.primitiveType);
  }

  /** The interpreter's integer arithmetic is the validator's fold. */
  lemma ArithIsFold(op: string, a: int, b: int, ctx: ParseContext)
    requires Check.FoldInt(op, a, b, ctx).Success?
    ensures op in ArithOperators
    ensures Arith(op, IntV(a), IntV(b)) == Success(IntV(Check.FoldInt(op, a, b, ctx).value))
  {
  }

  /** An integer constant the validator accepts evaluates to its own value,
      tagged with an integer type wide enough for it. */
  lemma ValidatedIntConstant(env: Check.Env, frames: Scopes.Scope, ctx: ParseContext, i: int)
    requires Check.Expression(env, frames, Const(None, ctx, IntLit(i))).Success?
    ensures var n := Check.Expression(env, frames, Const(None, ctx, IntLit(i))).value.1;
      && EvalExpr(n).Success?
      && EvalExpr(n).value.payload == IntV(i)
      && EvalExpr(n).value.primitiveType.Some?
      && EvalExpr(n).value.primitiveType.value in IntegerTypes
      && Types.FitsIn(i, EvalExpr(n).value.primitiveType.value)
  {
    Types.LiteralTypeIsNarrowest(i, ctx);
    var t := Types.PrimitiveTypeFromConstant(i, ctx).value;
    IntegerTypesAreTheEightWidths(t.primitive);
  }

  /** What the validator makes of an operation on two integer constants:
      the fold succeeds, and the node and its operands carry the types of
      their values. */
  lemma ValidatedConstantMath(env: Check.Env, frames: Scopes.Scope, ctx: ParseContext, c1: ParseContext, c2: ParseContext, a: int, b: int, op: string)
    requires Check.Expression(env, frames, Math(None, ctx, Const(None, c1, IntLit(a)), Const(None, c2, IntLit(b)), op)).Success?
    ensures Check.FoldInt(op, a, b, ctx).Success?
    ensures Types.PrimitiveTypeFromConstant(Check.FoldInt(op, a, b, ctx).value, ctx).Success?
    ensures Types.PrimitiveTypeFromConstant(a, c1).Success? && Types.PrimitiveTypeFromConstant(b, c2).Success?
    ensures Check.Expression(env, frames, Math(None, ctx, Const(None, c1, IntLit(a)), Const(None, c2, IntLit(b)), op)).value.1
      == Math(Some(Types.PrimitiveTypeFromConstant(Check.FoldInt(op, a, b, ctx).value, ctx).value), ctx,
              Const(Some(Types.PrimitiveTypeFromConstant(a, c1).value), c1, IntLit(a)),
              Const(Some(Types.PrimitiveTypeFromConstant(b, c2).value), c2, IntLit(b)), op)
  {
  }

  /** An integer operation on two integer-tagged constants evaluates to
      the fold of their values. */
  lemma IntegerConstantMath(t: VarType, t1: PrimitiveType, t2: PrimitiveType, ctx: ParseContext, c1: ParseContext, c2: ParseContext, a: int, b: int, op: string)
    requires t1 in IntegerTypes && t2 in IntegerTypes
    requires Check.FoldInt(op, a, b, ctx).Success?
    ensures EvalExpr(Math(Some(t), ctx, Const(Some(Primitive(t1)), c1, IntLit(a)), Const(Some(Primitive(t2)), c2, IntLit(b)), op))
      == Success(Value(PRIMITIVE, IntV(Check.FoldInt(op, a, b, ctx).value), PrimitiveOf(t), false, None))
  {
    var n1 := Const(Some(Primitive(t1)), c1, IntLit(a));
    var n2 := Const(Some(Primitive(t2)), c2, IntLit(b));
    var v1 := Value(PRIMITIVE, IntV(a), Some(t1), false, None);
    var v2 := Value(PRIMITIVE, IntV(b), Some(t2), false, None);
    assert EvalExpr(n1) == Success(v1);
    assert EvalExpr(n2) == Success(v2);
    ArithIsFold(op, a, b, ctx);
    MathStep(Some(t), ctx, n1, n2, op);
    IntegerOperands(v1, v2, a, b, t1, t2, op, Some(t));
  }

  /** The interpreter agrees with the validator's constant folding: an
      operation on two integer constants that validates evaluates to the
      folded value, tagged with the type the validator gave it, which holds
      that value. */
  lemma InterpreterAgreesWithFolding(env: Check.Env, frames: Scopes.Scope, ctx: ParseContext, c1: ParseContext, c2: ParseContext, a: int, b: int, op: string)
    requires Check.Expression(env, frames, Math(None, ctx, Const(None, c1, IntLit(a)), Const(None, c2, IntLit(b)), op)).Success?
    ensures Check.FoldInt(op, a, b, ctx).Success?
    ensures var n := Check.Expression(env, frames, Math(None, ctx, Const(None, c1, IntLit(a)), Const(None, c2, IntLit(b)), op)).value.1;
      var v := Check.FoldInt(op, a, b, ctx).value;
      && EvalExpr(n).Success?
      && EvalExpr(n).value.payload == IntV(v)
      && TypeOf(n).Some? && EvalExpr(n).value.primitiveType == PrimitiveOf(TypeOf(n).value)
      && EvalExpr(n).value.primitiveType.Some?
      && Types.FitsIn(v, EvalExpr(n).value.primitiveType.value)
  {
    ValidatedConstantMath(env, frames, ctx, c1, c2, a, b, op);
    var v := Check.FoldInt(op, a, b, ctx).value;
    Types.LiteralTypeIsNarrowest(v, ctx);
    Types.LiteralTypeIsNarrowest(a, c1);
    Types.LiteralTypeIsNarrowest(b, c2);
    var t := Types.PrimitiveTypeFromConstant(v, ctx).value;
    var t1 := Types.PrimitiveTypeFromConstant(a, c1).value;
    var t2 := Types.PrimitiveTypeFromConstant(b, c2).value;
    IntegerTypesAreTheEightWidths(t1.primitive);
    IntegerTypesAreTheEightWidths(t2.primitive);
    IntegerConstantMath(t, t1.primitive, t2.primitive, ctx, c1, c2, a, b, op);
  }

  /** Float literals are typed F32 by the validator, but the operand test
      admits FLOAT and not F32: arithmetic on two float constants that
      validates still raises at run time. */
  lemma FloatConstantsAreNotOperands(env: Check.Env, frames: Scopes.Scope, ctx: ParseContext, c1: ParseContext, c2: ParseContext, x: real, y: real, op: string)
    requires Check.Expression(env, frames, Math(None, ctx, Const(None, c1, FloatLit(x)), Const(None, c2, FloatLit(y)), op)).Success?
    ensures var n := Check.Expression(env, frames, Math(None, ctx, Const(None, c1, FloatLit(x)), Const(None, c2, FloatLit(y)), op)).value.1;
      EvalExpr(n) == Failure(Runtime(NotSupported))
  {
    var n := Check.Expression(env, frames, Math(None, ctx, Const(None, c1, FloatLit(x)), Const(None, c2, FloatLit(y)), op)).value.1;
    assert n.Math? && n.operator == op && n.op1 == Const(Some(Primitive(F32)), c1, FloatLit(x));
    assert op in ArithOperators;
    assert !IsNumberOperand(EvalExpr(n.op1).value);
  }

  /** The arguments of a call, evaluated left to right (line 54). */
  function EvalArgs(args: seq<Expr>): (r: Result<seq<Value>, Error>)
    ensures r.Success? <==> forall i :: 0 <= i < |args| ==> EvalExpr(args[i]).Success?
    ensures r.Success? ==> |r.value| == |args| && forall i :: 0 <= i < |args| ==> EvalExpr(args[i]) == Success(r.value[i])
  {
    if args == [] then Success([])
    else
      var v :- EvalExpr(args[0]);
      var rest :- EvalArgs(args[1..]);
      assert forall i :: 1 <= i < |args| ==> args[i] == args[1..][i - 1];
      Success([v] + rest)
  }

  /** The error of a failed argument list is that of its first failing
      argument. */
  lemma {:induction false} FirstFailingArgument(args: seq<Expr>, k: nat)
    requires k < |args|
    requires forall j :: 0 <= j < k ==> EvalExpr(args[j]).Success?
    requires EvalExpr(args[k]).Failure?
    ensures EvalArgs(args) == Failure(EvalExpr(args[k]).error)
    decreases k
  {
    if k == 0 {
      assert EvalArgs(args) == Failure(EvalExpr(args[0]).error);
    } else {
      var rest := args[1..];
      assert forall j :: 0 <= j < k - 1 ==> rest[j] == args[j + 1];
      assert rest[k - 1] == args[k];
      FirstFailingArgument(rest, k - 1);
      FailureAfterSuccessfulArgument(args);
    }
  }

  /** A successful first argument passes on the failure of the rest. */
  lemma FailureAfterSuccessfulArgument(args: seq<Expr>)
    requires |args| > 0 && EvalExpr(args[0]).Success?
    requires EvalArgs(args[1..]).Failure?
    ensures EvalArgs(args) == EvalArgs(args[1..])
  {
  }

  // ---------------------------------------------------------------------
  // Statements. `depth` is the number of nested user calls the host's
  // recursion limit still allows.

  /** `statements` (42-44): run in order, stopping at the first error. */
  function ExecStatements(g: GlobalScope, ss: seq<Stmt>, depth: nat): (r: Outcome<Error>)
    ensures ss == [] ==> r == Pass
    decreases depth, ss
  {
    if ss == [] then Pass
    else
      var first := ExecStatement(g, ss[0], depth);
      if first.Fail? then first else ExecStatements(g, ss[1..], depth)
  }

  /** A call of a name no user function has: a builtin with the argument
      list and no `context` keyword, otherwise a KeyError of the host. */
  function CallBuiltin(name: string, args: seq<Value>): (r: Outcome<Error>)
    ensures name !in BuiltinFunctions() ==> r == Fail(Internal("KeyError: '" + name + "'"))
    ensures name in BuiltinFunctions() ==> (r.Pass? <==> Invoke(BuiltinFunctions()[name], args, None).Success?)
  {
    if name in BuiltinFunctions() then
      var res := Invoke(BuiltinFunctions()[name], args, None);
      if res.Failure? then Fail(res.error) else Pass
    else Fail(Internal("KeyError: '" + name + "'"))
  }

  /** `statement` (46-75): only a call runs. Its arguments are evaluated
      first; then a user function runs its body, or a builtin is handed the
      argument list without a `context` keyword; a name that is neither is
      a KeyError of the host. */
  function ExecStatement(g: GlobalScope, s: Stmt, depth: nat): (r: Outcome<Error>)
    ensures r.Pass? ==> s.CallStmt?
    ensures s.AccessStmt? ==> r == Fail(Runtime("Unhandled statement"))
    ensures !s.CallStmt? && !s.AccessStmt? ==> r == Fail(Runtime("not implemented"))
    decreases depth, s
  {
    match s
    case CallStmt(c) =>
      var args := EvalArgs(c.args);
      if args.Failure? then Fail(args.error)
      else
        match FindFunction(g.functions, c.name) {
          case Some(f) =>
            if depth == 0 then Fail(Internal(RecursionLimit))
            else ExecStatements(g, f.body, depth - 1)
          case None => CallBuiltin(c.name, args.value)
        }
    case AccessStmt(_) => Fail(Runtime("Unhandled statement"))
    case _ => Fail(Runtime("not implemented"))
  }

  /** A statement list passes iff each statement passes, and a failing
      list reports its first failing statement's error. */
  lemma {:induction false} FirstFailingStatement(g: GlobalScope, ss: seq<Stmt>, depth: nat, k: nat)
    requires k <= |ss|
    requires forall j :: 0 <= j < k ==> ExecStatement(g, ss[j], depth) == Pass
    ensures k == |ss| ==> ExecStatements(g, ss, depth) == Pass
    ensures k < |ss| && ExecStatement(g, ss[k], depth).Fail? ==>
      ExecStatements(g, ss, depth) == ExecStatement(g, ss[k], depth)
    decreases k
  {
    if ss != [] {
      ExecStatementsStep(g, ss, depth);
    }
    if k > 0 {
      assert forall j :: 0 <= j < k - 1 ==> ss[1..][j] == ss[j + 1];
      FirstFailingStatement(g, ss[1..], depth, k - 1);
    }
  }

  /** A non-empty list runs its first statement, and the rest only if that
      one passed. */
  lemma ExecStatementsStep(g: GlobalScope, ss: seq<Stmt>, depth: nat)
    requires ss != []
    ensures ExecStatement(g, ss[0], depth).Fail? ==> ExecStatements(g, ss, depth) == ExecStatement(g, ss[0], depth)
    ensures ExecStatement(g, ss[0], depth).Pass? ==> ExecStatements(g, ss, depth) == ExecStatements(g, ss[1..], depth)
  {
  }

  /** The builtin `assert` is registered to receive the call context, but
      the interpreter passes none: calling it with evaluable arguments
      fails with a KeyError whatever they are. */
  lemma AssertCallHasNoContext(g: GlobalScope, c: FunctionCall, depth: nat)
    requires c.name == "assert"
    requires FindFunction(g.functions, "assert").None?
    requires EvalArgs(c.args).Success?
    ensures ExecStatement(g, CallStmt(c), depth) == Fail(Internal("KeyError: 'context'"))
  {
    FreeFunctionSignatures();
  }

  /** A print builtin called with one evaluable argument passes. */
  lemma PrintCallPasses(g: GlobalScope, c: FunctionCall, depth: nat)
    requires c.name in {"prints", "printi", "printf", "printb"}
    requires FindFunction(g.functions, c.name).None?
    requires |c.args| == 1 && EvalExpr(c.args[0]).Success?
    ensures ExecStatement(g, CallStmt(c), depth) == Pass
  {
    CallStep(g, CallStmt(c), depth);
    PrintBuiltinPasses(c.name, EvalArgs(c.args).value);
  }

  /** The print builtins accept any single value. */
  lemma PrintBuiltinPasses(name: string, args: seq<Value>)
    requires name in {"prints", "printi", "printf", "printb"}
    requires |args| == 1
    ensures CallBuiltin(name, args) == Pass
  {
    FreeFunctionSignatures();
  }

  /** A function whose body only calls itself never returns: at every
      depth the run ends in the host's recursion error. */
  lemma {:induction false} SelfCallHitsRecursionLimit(g: GlobalScope, f: Function, depth: nat)
    requires FindFunction(g.functions, f.name) == Some(f)
    requires f.body == [CallStmt(FunctionCall(None, f.ctx, f.name, []))]
    ensures ExecStatements(g, f.body, depth) == Fail(Internal(RecursionLimit))
    decreases depth
  {
    var s := f.body[0];
    assert EvalArgs([]) == Success([]);
    if depth > 0 {
      SelfCallHitsRecursionLimit(g, f, depth - 1);
    }
    assert ExecStatement(g, s, depth) == Fail(Internal(RecursionLimit));
    assert ExecStatements(g, f.body, depth) == ExecStatement(g, s, depth);
  }

  /** Extra depth changes nothing for a run that did not hit the limit. */
  lemma {:induction false} DepthOnlyMattersAtTheLimit(g: GlobalScope, ss: seq<Stmt>, depth: nat, more: nat)
    requires ExecStatements(g, ss, depth) != Fail(Internal(RecursionLimit))
    ensures ExecStatements(g, ss, depth + more) == ExecStatements(g, ss, depth)
    decreases depth, ss
  {
    if ss != [] {
      StatementDepth(g, ss[0], depth, more);
      if ExecStatement(g, ss[0], depth) == Pass {
        DepthOnlyMattersAtTheLimit(g, ss[1..], depth, more);
      }
    }
  }

  lemma {:induction false} StatementDepth(g: GlobalScope, s: Stmt, depth: nat, more: nat)
    requires ExecStatement(g, s, depth) != Fail(Internal(RecursionLimit))
    ensures ExecStatement(g, s, depth + more) == ExecStatement(g, s, depth)
    decreases depth, s
  {
    if s.CallStmt? {
      CallStep(g, s, depth);
      CallStep(g, s, depth + more);
      if EvalArgs(s.call.args).Success? && FindFunction(g.functions, s.call.name).Some? {
        var body := FindFunction(g.functions, s.call.name).value.body;
        DepthOnlyMattersAtTheLimit(g, body, depth - 1, more);
        assert ExecStatement(g, s, depth + more) == ExecStatements(g, body, depth - 1 + more);
      }
    }
  }

  /** A call statement fails with its first failing argument; otherwise it
      runs the user function's body one level deeper, hits the limit at
      depth 0, or calls the builtin. */
  lemma CallStep(g: GlobalScope, s: Stmt, depth: nat)
    requires s.CallStmt?
    ensures EvalArgs(s.call.args).Failure? ==> ExecStatement(g, s, depth) == Fail(EvalArgs(s.call.args).error)
    ensures EvalArgs(s.call.args).Success? ==> var f := FindFunction(g.functions, s.call.name);
      && (f.Some? && depth == 0 ==> ExecStatement(g, s, depth) == Fail(Internal(RecursionLimit)))
      && (f.Some? && depth > 0 ==> ExecStatement(g, s, depth) == ExecStatements(g, f.value.body, depth - 1))
      && (f.None? ==> ExecStatement(g, s, depth) == CallBuiltin(s.call.name, EvalArgs(s.call.args).value))
  {
  }

  /** ExecStatements unfolded at position i of a list. */
  lemma StatementsStep(g: GlobalScope, ss: seq<Stmt>, i: nat, depth: nat)
    requires i < |ss|
    ensures ExecStatement(g, ss[i], depth).Fail? ==> ExecStatements(g, ss[i..], depth) == ExecStatement(g, ss[i], depth)
    ensures ExecStatement(g, ss[i], depth).Pass? ==> ExecStatements(g, ss[i..], depth) == ExecStatements(g, ss[i + 1..], depth)
  {
    assert ss[i..][0] == ss[i];
    assert ss[i..][1..] == ss[i + 1..];
  }

  /** The Interpreter object: the program it runs and the scope stack of
      the function currently executing. */
  class Interpreter {
    var globalScope: GlobalScope
    var scopeStack: ScopeStack

    /** `Interpreter()`: the attributes `run` assigns start out holding an
        empty program and a fresh stack. */
    constructor()
      ensures globalScope == GlobalScope([], [], map[])
      ensures fresh(scopeStack) && scopeStack.stack == [map[]]
    {
      globalScope := GlobalScope([], [], map[]);
      scopeStack := new ScopeStack();
    }

    /** run (34-40): without a `main` it raises; otherwise main's body runs
        against a fresh single-frame stack. */
    method Run(ast: GlobalScope, depth: nat) returns (r: Outcome<Error>)
      modifies this
      ensures globalScope == ast
      ensures FindFunction(ast.functions, "main").None? ==>
        r == Fail(Runtime("No main function found")) && scopeStack == old(scopeStack)
      ensures FindFunction(ast.functions, "main").Some? ==>
        r == ExecStatements(ast, FindFunction(ast.functions, "main").value.body, depth)
      ensures FindFunction(ast.functions, "main").Some? && r.Pass? ==>
        fresh(scopeStack) && scopeStack.stack == [map[]]
    {
      globalScope := ast;
      var main := FindFunction(ast.functions, "main");
      if main.None? {
        return Fail(Runtime("No main function found"));
      }
      scopeStack := new ScopeStack();
      r := Statements(main.value.body, depth);
    }

    /** statements (42-44). */
    method Statements(ss: seq<Stmt>, depth: nat) returns (r: Outcome<Error>)
      modifies this
      ensures globalScope == old(globalScope)
      ensures r == ExecStatements(globalScope, ss, depth)
      ensures r.Pass? ==> scopeStack == old(scopeStack)
      decreases depth, ss
    {
      var i := 0;
      assert ss[0..] == ss;
      while i < |ss|
        invariant 0 <= i <= |ss|
        invariant globalScope == old(globalScope)
        invariant scopeStack == old(scopeStack)
        invariant ExecStatements(globalScope, ss, depth) == ExecStatements(globalScope, ss[i..], depth)
      {
        StatementsStep(globalScope, ss, i, depth);
        var step := Statement(ss[i], depth);
        if step.Fail? {
          return step;
        }
        i := i + 1;
      }
      assert ss[i..] == [];
      return Pass;
    }

    /** statement (46-75). A user call saves the caller's stack, runs the
        callee on a brand-new one and puts the caller's back; a raise on
        the way leaves the callee's stack installed. */
    method Statement(s: Stmt, depth: nat) returns (r: Outcome<Error>)
      modifies this
      ensures globalScope == old(globalScope)
      ensures r == ExecStatement(globalScope, s, depth)
      ensures r.Pass? ==> scopeStack == old(scopeStack) && scopeStack.stack == old(scopeStack.stack)
      decreases depth, s
    {
      match s {
        case CallStmt(c) =>
          var args := EvalArgs(c.args);
          if args.Failure? {
            return Fail(args.error);
          }
          var f := FindFunction(globalScope.functions, c.name);
          if f.Some? {
            if depth == 0 {
              return Fail(Internal(RecursionLimit));
            }
            var saved := scopeStack;
            scopeStack := new ScopeStack();
            r := Statements(f.value.body, depth - 1);
            if r.Fail? {
              return r;
            }
            scopeStack := saved;
            return Pass;
          }
          if c.name !in BuiltinFunctions() {
            return Fail(Internal("KeyError: '" + c.name + "'"));
          }
          var res := Invoke(BuiltinFunctions()[c.name], args.value, None);
          if res.Failure? {
            return Fail(res.error);
          }
          return Pass;
        case AccessStmt(_) =>
          return Fail(Runtime("Unhandled statement"));
        case _ =>
          return Fail(Runtime("not implemented"));
      }
    }
  }
}

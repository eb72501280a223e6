/**
 * What the validation pass promises about the programs it accepts and the
 * ones it rejects, stated over the functions of module Check.
 */
module CheckProps {
  import opened Wrappers
  import opened Ast
  import opened Exceptions
  import opened Types
  import opened Frames
  import opened Scopes
  import opened Check
  import Builtins

  // ---------------------------------------------------------------------
  // Python's floor division and modulo.

  /** `//` and `%` agree with each other (a == b*q + m) and the remainder has
      the sign of the divisor, as Python's operators do. */
  lemma FloorDivMod(a: int, b: int)
    requires b != 0
    ensures a == b * FloorDiv(a, b) + FloorMod(a, b)
    ensures b > 0 ==> 0 <= FloorMod(a, b) < b
    ensures b < 0 ==> b < FloorMod(a, b) <= 0
  {
    if b < 0 {
      var q := (-a) / (-b);
      var m := (-a) % (-b);
      assert -a == (-b) * q + m && 0 <= m < -b;
      assert FloorMod(a, b) == a - b * q;
      assert a - b * q == -m;
    }
  }

  /** Floor rounding differs from truncation and from Euclidean division on
      negative operands: -7 // 2 == -4, 7 // -2 == -4, 7 % -2 == -1. */
  lemma FloorExamples()
    ensures FloorDiv(7, 2) == 3 && FloorMod(7, 2) == 1
    ensures FloorDiv(-7, 2) == -4 && FloorMod(-7, 2) == 1
    ensures FloorDiv(7, -2) == -4 && FloorMod(7, -2) == -1
    ensures FloorDiv(-7, -2) == 3 && FloorMod(-7, -2) == -1
  {
    assert (-7) / 2 == -4;
    assert (-7) / (-(-2)) == -4;
    assert 7 / 2 == 3;
  }

  // ---------------------------------------------------------------------
  // Operator expressions.

  function IntConst(ctx: ParseContext, i: int): Expr
  {
    Const(None, ctx, IntLit(i))
  }

  /** Two integer constants are folded: the expression takes the narrowest
      type of the folded value's family, and `/` or `%` by a zero constant is
      rejected. */
  lemma FoldedConstantType(env: Env, frames: Scope, ctx: ParseContext, c1: ParseContext, c2: ParseContext, a: int, b: int, op: string)
    ensures var r := Expression(env, frames, Math(None, ctx, IntConst(c1, a), IntConst(c2, b), op));
      && (r.Success? ==>
            && FoldInt(op, a, b, ctx).Success?
            && r.value.0 == Some(PrimitiveTypeFromConstant(FoldInt(op, a, b, ctx).value, ctx).value))
      && (r.Success? ==> var v := FoldInt(op, a, b, ctx).value;
            && r.value.0.value.Primitive?
            && FitsIn(v, r.value.0.value.primitive)
            && (v < 0 <==> IsSignedInt(r.value.0.value.primitive))
            && (forall q :: SameFamily(q, r.value.0.value.primitive) && BitWidth(q) < BitWidth(r.value.0.value.primitive) ==> !FitsIn(v, q)))
      && ((op == "/" || op == "%") && b == 0 && PrimitiveTypeFromConstant(a, c1).Success? ==>
            r == Failure(Context("Division by zero", ctx)))
  {
    var e := Math(None, ctx, IntConst(c1, a), IntConst(c2, b), op);
    var r := Expression(env, frames, e);
    if r.Success? {
      LiteralTypeIsNarrowest(FoldInt(op, a, b, ctx).value, ctx);
    }
  }

  /** Two integer constants in range are typed by folding them. */
  lemma ConstantMathType(env: Env, frames: Scope, ctx: ParseContext, a: int, b: int, op: string)
    requires PrimitiveTypeFromConstant(a, ctx).Success? && PrimitiveTypeFromConstant(b, ctx).Success?
    ensures var r := Expression(env, frames, Math(None, ctx, IntConst(ctx, a), IntConst(ctx, b), op));
      && (FoldInt(op, a, b, ctx).Failure? ==> r == Failure(FoldInt(op, a, b, ctx).error))
      && (FoldInt(op, a, b, ctx).Success? && PrimitiveTypeFromConstant(FoldInt(op, a, b, ctx).value, ctx).Success? ==>
            r.Success? && r.value.0 == Some(PrimitiveTypeFromConstant(FoldInt(op, a, b, ctx).value, ctx).value))
  {
    assert Expression(env, frames, IntConst(ctx, a)).Success?;
    assert Expression(env, frames, IntConst(ctx, b)).Success?;
  }

  /** The folds the compiler performs on small literals: 200 + 100 is a u16,
      5 - 10 an i8, 7 / 0 is rejected. */
  lemma FoldingExamples(env: Env, frames: Scope, ctx: ParseContext)
    ensures Expression(env, frames, Math(None, ctx, IntConst(ctx, 200), IntConst(ctx, 100), "+")).Success?
    ensures Expression(env, frames, Math(None, ctx, IntConst(ctx, 200), IntConst(ctx, 100), "+")).value.0 == Some(Primitive(U16))
    ensures Expression(env, frames, Math(None, ctx, IntConst(ctx, 5), IntConst(ctx, 10), "-")).Success?
    ensures Expression(env, frames, Math(None, ctx, IntConst(ctx, 5), IntConst(ctx, 10), "-")).value.0 == Some(Primitive(I8))
    ensures Expression(env, frames, Math(None, ctx, IntConst(ctx, 7), IntConst(ctx, 0), "/")) == Failure(Context("Division by zero", ctx))
  {
    IntegerBounds();
    assert PrimitiveTypeFromConstant(200, ctx) == Success(Primitive(U8));
    assert PrimitiveTypeFromConstant(100, ctx) == Success(Primitive(U8));
    assert PrimitiveTypeFromConstant(5, ctx) == Success(Primitive(U8));
    assert PrimitiveTypeFromConstant(10, ctx) == Success(Primitive(U8));
    assert PrimitiveTypeFromConstant(7, ctx) == Success(Primitive(U8));
    assert PrimitiveTypeFromConstant(0, ctx) == Success(Primitive(U8));
    assert FoldInt("+", 200, 100, ctx) == Success(300);
    assert PrimitiveTypeFromConstant(300, ctx) == Success(Primitive(U16));
    ConstantMathType(env, frames, ctx, 200, 100, "+");
    assert FoldInt("-", 5, 10, ctx) == Success(-5);
    assert PrimitiveTypeFromConstant(-5, ctx) == Success(Primitive(I8));
    ConstantMathType(env, frames, ctx, 5, 10, "-");
    assert FoldInt("/", 7, 0, ctx) == Failure(Context("Division by zero", ctx));
    ConstantMathType(env, frames, ctx, 7, 0, "/");
  }

  /** An operator expression that is not folded takes the type of one of its
      operands: the first one if it accepts the second, else the second,
      which then accepts the first. */
  lemma UnfoldedMathTakesOperandType(env: Env, frames: Scope, ctx: ParseContext, op1: Expr, op2: Expr, op: string)
    requires !BothIntConstants(op1, op2) && !BothFloatConstants(op1, op2)
    ensures var r := Expression(env, frames, Math(None, ctx, op1, op2, op));
      r.Success? ==>
        && Expression(env, frames, op1).Success? && Expression(env, frames, op2).Success?
        && var t1 := Expression(env, frames, op1).value.0;
           var t2 := Expression(env, frames, op2).value.0;
           && r.value.0.Some?
           && ((r.value.0 == t1 && Compat(t1, t2) == Success(true))
               || (r.value.0 == t2 && Compat(t1, t2) == Success(false) && Compat(t2, t1) == Success(true)))
  {
    var r := Expression(env, frames, Math(None, ctx, op1, op2, op));
    if r.Success? {
      var t1 := Expression(env, frames, op1).value;
      var t2 := Expression(env, frames, op2).value;
      assert MathResultType(op1, op2, t1.0, t2.0, op, ctx) == Unify(t1.0, t2.0, ctx);
      assert r.value.0 == Unify(t1.0, t2.0, ctx).value;
    }
  }

  /** A comparison is a bool, accepted exactly when one operand type accepts
      the other. */
  lemma ComparisonIsBool(env: Env, frames: Scope, ctx: ParseContext, op1: Expr, op2: Expr, op: string)
    ensures var r := Expression(env, frames, Compare(None, ctx, op1, op2, op));
      && (r.Success? ==> r.value.0 == Some(Primitive(BOOL)))
      && (r.Success? ==>
            && Expression(env, frames, op1).Success? && Expression(env, frames, op2).Success?
            && var t1 := Expression(env, frames, op1).value.0;
               var t2 := Expression(env, frames, op2).value.0;
               Compat(t1, t2) == Success(true) || Compat(t2, t1) == Success(true))
      && (Expression(env, frames, op1).Success? && Expression(env, frames, op2).Success? ==>
            var t1 := Expression(env, frames, op1).value.0;
            var t2 := Expression(env, frames, op2).value.0;
            Compat(t1, t2) == Success(false) && Compat(t2, t1) == Success(false) ==>
              r == Failure(Mismatch("Operands cannot be compared", ctx)))
  {
    var e1 := Expression(env, frames, op1);
    var e2 := Expression(env, frames, op2);
    if e1.Success? && e2.Success? {
      var c1 := Compat(e1.value.0, e2.value.0);
      var c2 := Compat(e2.value.0, e1.value.0);
      if c1.Success? && !c1.value && c2.Success? && !c2.value {
        assert Expression(env, frames, Compare(None, ctx, op1, op2, op)) == Failure(Mismatch("Operands cannot be compared", ctx));
      }
    }
  }

  /** A unary expression types its operand, then applies the operator's rule. */
  lemma UnaryStep(env: Env, frames: Scope, ctx: ParseContext, operand: Expr, op: string)
    ensures var to := Expression(env, frames, operand);
      var r := Expression(env, frames, Unary(None, ctx, operand, op));
      && (to.Failure? ==> r == Failure(to.error))
      && (to.Success? && UnaryResultType(op, to.value.0, ctx).Failure? ==>
            r == Failure(UnaryResultType(op, to.value.0, ctx).error))
      && (to.Success? && UnaryResultType(op, to.value.0, ctx).Success? ==>
            r.Success? && r.value.0 == Some(UnaryResultType(op, to.value.0, ctx).value))
  {
  }

  /** `not` accepts only a bool and yields a bool. */
  lemma NotOperandRule(env: Env, frames: Scope, ctx: ParseContext, operand: Expr)
    ensures var r := Expression(env, frames, Unary(None, ctx, operand, "not"));
      r.Success? ==>
        r.value.0 == Some(Primitive(BOOL)) && Expression(env, frames, operand).value.0 == Some(Primitive(BOOL))
  {
    UnaryStep(env, frames, ctx, operand, "not");
  }

  /** Unary minus keeps the operand's type, which must be a signed integer
      or f32, and names unsigned operands in its error. */
  lemma MinusOperandRule(env: Env, frames: Scope, ctx: ParseContext, operand: Expr)
    ensures var r := Expression(env, frames, Unary(None, ctx, operand, "-"));
      && (r.Success? ==>
            && r.value.0 == Expression(env, frames, operand).value.0
            && r.value.0.Some? && r.value.0.value.Primitive?
            && (IsSignedInt(r.value.0.value.primitive) || r.value.0.value.primitive == F32))
      && (Expression(env, frames, operand).Success?
            && Expression(env, frames, operand).value.0.Some?
            && Expression(env, frames, operand).value.0.value.Primitive?
            && IsUnsignedInt(Expression(env, frames, operand).value.0.value.primitive) ==>
          r == Failure(Mismatch("unary minus operator cannot be used with unsigned integer types", ctx)))
  {
    UnaryStep(env, frames, ctx, operand, "-");
    var to := Expression(env, frames, operand);
    if to.Success? {
      MinusResultType(to.value.0, ctx);
    }
  }

  /** The rule of unary minus on a known operand type. */
  lemma MinusResultType(t: Option<VarType>, ctx: ParseContext)
    ensures var r := UnaryResultType("-", t, ctx);
      && (r.Success? ==> t == Some(r.value) && r.value.Primitive? && (IsSignedInt(r.value.primitive) || r.value.primitive == F32))
      && (t.Some? && t.value.Primitive? && IsUnsignedInt(t.value.primitive) ==>
            r == Failure(Mismatch("unary minus operator cannot be used with unsigned integer types", ctx)))
  {
  }

  /** `not` accepts only a bool; unary minus keeps the operand's type, which
      must be a signed integer or f32, and names unsigned operands in its
      error; no other unary operator is accepted. */
  lemma UnaryOperandRules(env: Env, frames: Scope, ctx: ParseContext, operand: Expr, op: string)
    ensures var r := Expression(env, frames, Unary(None, ctx, operand, op));
      && (r.Success? ==> op == "not" || op == "-")
      && (r.Success? && op == "not" ==>
            r.value.0 == Some(Primitive(BOOL)) && Expression(env, frames, operand).value.0 == Some(Primitive(BOOL)))
      && (r.Success? && op == "-" ==>
            && r.value.0 == Expression(env, frames, operand).value.0
            && r.value.0.Some? && r.value.0.value.Primitive?
            && (IsSignedInt(r.value.0.value.primitive) || r.value.0.value.primitive == F32))
      && (op == "-" && Expression(env, frames, operand).Success?
            && Expression(env, frames, operand).value.0.Some?
            && Expression(env, frames, operand).value.0.value.Primitive?
            && IsUnsignedInt(Expression(env, frames, operand).value.0.value.primitive) ==>
          r == Failure(Mismatch("unary minus operator cannot be used with unsigned integer types", ctx)))
  {
    if op == "not" {
      NotOperandRule(env, frames, ctx, operand);
    } else if op == "-" {
      MinusOperandRule(env, frames, ctx, operand);
    }
  }

  // ---------------------------------------------------------------------
  // Calls.

  /** A user function shadows a builtin of the same name: a call's type is
      the user function's return type whenever one is declared. */
  lemma UserFunctionShadowsBuiltin(env: Env, frames: Scope, c: FunctionCall)
    requires FindFunction(env.g.functions, c.name).Some?
    ensures var r := Expression(env, frames, Call(c));
      r.Success? ==> r.value.0 == FindFunction(env.g.functions, c.name).value.returnType
  {
  }

  /** A call with the wrong number of arguments is rejected with the
      expected and the given counts. */
  lemma CallArityMismatch(env: Env, frames: Scope, c: FunctionCall)
    requires CalleeSignature(env.g, c.name, c.ctx).Success?
    requires |c.args| != |CalleeSignature(env.g, c.name, c.ctx).value.0|
    ensures Expression(env, frames, Call(c)) ==
      Failure(Context("function " + c.name + " takes " + NatToString(|CalleeSignature(env.g, c.name, c.ctx).value.0|)
        + " params, " + NatToString(|c.args|) + " given", c.ctx))
  {
  }

  /** An accepted call passes a non-const variable for every reference
      parameter and an argument the parameter type accepts for every one. */
  lemma AcceptedCallArguments(env: Env, frames: Scope, c: FunctionCall)
    ensures var r := FunctionCallType(env, frames, c);
      r.Success? ==> var params := CalleeSignature(env.g, c.name, c.ctx).value.0;
        && |c.args| == |params|
        && (forall i :: 0 <= i < |params| && params[i].reference ==>
              c.args[i].Access? && !IsConstVariable(frames, c.args[i].access.name))
        && (forall i :: 0 <= i < |params| ==>
              Compat(Some(params[i].paramType), TypeOf(r.value.1.args[i])) == Success(true))
  {
    var r := FunctionCallType(env, frames, c);
    if r.Success? {
      var params := CalleeSignature(env.g, c.name, c.ctx).value.0;
      var checked := CheckCallArguments(env, frames, c.name, c.ctx, c.args, params);
      assert checked.Success? && r.value.1.args == checked.value;
      assert |c.args| == |params| && checked == CheckArgs(env, frames, c.args, params);
      CheckedArguments(env, frames, c.args, params);
    }
  }

  /** Only arrays (append) and strings (toLowerCase, toUpperCase) have
      methods: a method call on a plain variable of any other type fails. */
  lemma MethodsOnlyOnArraysAndStrings(env: Env, frames: Scope, a: VarAccess, t: VarType)
    requires TypeOfVariable(frames, a.name) == Some(t)
    requires a.index.None? && a.member.None? && a.methodCall.Some?
    ensures var r := Expression(env, frames, Access(a));
      r.Success? ==> t.Array? || t == Primitive(STRING)
    ensures var r := Expression(env, frames, Access(a));
      r.Success? && t.Array? ==> a.methodCall.value.name == "append"
  {
    Builtins.MethodSignatures(STRING);
  }

  // ---------------------------------------------------------------------
  // Variable access.

  /** A variable hides an enum of the same name. */
  lemma VariableShadowsEnum(env: Env, frames: Scope, a: VarAccess, t: VarType)
    requires TypeOfVariable(frames, a.name) == Some(t)
    requires a.index.None? && a.member.None? && a.methodCall.None?
    ensures Expression(env, frames, Access(a)) == Success((Some(t), Access(a.(ty := Some(t)))))
  {
  }

  /** A name that is no variable must be an enum, and then must name one of
      its members. */
  lemma UnknownNames(env: Env, frames: Scope, a: VarAccess)
    requires TypeOfVariable(frames, a.name).None?
    ensures a.name !in env.g.enums ==>
      Expression(env, frames, Access(a)) == Failure(Context("Unknown variable: " + a.name, a.ctx))
    ensures a.name in env.g.enums && a.member.Some? && a.member.value.name !in env.g.enums[a.name].entries ==>
      Expression(env, frames, Access(a)) == Failure(Context("Unknown enum member: " + a.member.value.name, a.ctx))
    ensures Expression(env, frames, Access(a)).Success? ==>
      Expression(env, frames, Access(a)).value.0 == Some(Enum(env.g.enums[a.name].name))
  {
  }

  /** Indexing a string yields a char; an index must be an integer. */
  lemma StringIndexIsChar(env: Env, frames: Scope, a: VarAccess)
    requires TypeOfVariable(frames, a.name) == Some(Primitive(STRING))
    requires a.index.Some? && a.member.None? && a.methodCall.None?
    ensures var r := Expression(env, frames, Access(a));
      r.Success? ==>
        && r.value.0 == Some(Primitive(CHAR))
        && TypeOf(r.value.1.access.index.value).Some?
        && IsIntegerIndex(TypeOf(r.value.1.access.index.value).value)
  {
  }

  /** A field access must name a member of the struct. */
  lemma StructFieldMustExist(env: Env, frames: Scope, a: VarAccess, s: StructType)
    requires TypeOfVariable(frames, a.name) == Some(Struct(s.name)) && s.name != ""
    requires a.index.None? && a.member.Some?
    requires FindStruct(env.g.structs, s.name) == Some(s)
    requires FirstMember(s.members, a.member.value.name).None?
    ensures Expression(env, frames, Access(a)) == Failure(Context("Unknown struct field: " + a.member.value.name, a.member.value.ctx))
  {
  }

  // ---------------------------------------------------------------------
  // Statements.

  /** A bare variable access is only a statement when it ends in a method
      call. */
  lemma AccessStatementNeedsMethodCall(env: Env, st: State, a: VarAccess)
    requires Innermost(a).methodCall.None?
    ensures CheckStatement(env, st, AccessStmt(a)) ==
      Failure(Context("Variable access as statement must end with a method call", a.ctx))
  {
  }

  /** A block holding a single break is accepted inside a loop. */
  lemma BreakBlockInLoop(env: Env, st: State, c: ParseContext)
    requires st.insideLoop
    ensures Block(env, st, [Break(c)]).Success?
  {
    var pushed := st.(frames := st.frames + [map[]]);
    assert CheckStatement(env, pushed, Break(c)) == Success((pushed, Break(c)));
    assert CheckStatements(env, pushed, [Break(c)][1..]) == Success((pushed, []));
    assert CheckStatements(env, pushed, [Break(c)]).Success?;
  }

  /** `if <bool constant>: break` is accepted inside a loop. */
  lemma ConditionalBreakInLoop(env: Env, st: State, c: ParseContext, b: bool)
    requires st.insideLoop
    ensures CheckStatement(env, st, NewIf(c, Const(None, c, BoolLit(b)), [Break(c)])).Success?
  {
    var s := NewIf(c, Const(None, c, BoolLit(b)), [Break(c)]);
    assert Expression(env, st.frames, s.cond) == Success((Some(Primitive(BOOL)), Const(Some(Primitive(BOOL)), c, BoolLit(b))));
    BreakBlockInLoop(env, st, c);
    assert CheckIf(env, st, s).Success?;
  }

  /** A loop whose body is a conditional break is accepted anywhere and
      leaves the state as it found it. */
  lemma ConditionalBreakLoop(env: Env, st: State, ctx: ParseContext, c: ParseContext, b: bool)
    ensures var body := [NewIf(c, Const(None, c, BoolLit(b)), [Break(c)])];
      CheckStatement(env, st, Loop(ctx, body)).Success?
      && CheckStatement(env, st, Loop(ctx, body)).value.0 == st
  {
    var body := [NewIf(c, Const(None, c, BoolLit(b)), [Break(c)])];
    var inLoop := st.(insideLoop := true);
    var pushed := inLoop.(frames := inLoop.frames + [map[]]);
    ConditionalBreakInLoop(env, pushed, c, b);
    var first := CheckStatement(env, pushed, body[0]).value;
    assert CheckStatements(env, first.0, body[1..]).Success?;
    assert CheckStatements(env, pushed, body).Success?;
    assert Block(env, inLoop, body).Success?;
  }

  /** break and continue are accepted exactly inside a loop; a loop whose
      body is a conditional break is accepted anywhere and leaves the state
      as it found it. */
  lemma BreakNeedsLoop(env: Env, st: State, ctx: ParseContext, c: ParseContext, b: bool)
    ensures CheckStatement(env, st, Break(ctx)).Failure? <==> !st.insideLoop
    ensures CheckStatement(env, st, Continue(ctx)).Failure? <==> !st.insideLoop
    ensures var body := [NewIf(c, Const(None, c, BoolLit(b)), [Break(c)])];
      CheckStatement(env, st, Loop(ctx, body)).Success?
      && CheckStatement(env, st, Loop(ctx, body)).value.0 == st
  {
    ConditionalBreakLoop(env, st, ctx, c, b);
  }

  /** A declaration binds a mutable variable of the resolved type, and
      fails on a name the innermost frame already has. */
  lemma DeclarationBindsMutable(env: Env, st: State, ctx: ParseContext, name: string, vt: VarType)
    ensures var r := CheckStatement(env, st, Decl(ctx, name, vt));
      r.Success? ==>
        && ConstnessOf(r.value.0.frames, name) == Some(false)
        && TypeOfVariable(r.value.0.frames, name) == Some(Typeify(vt, env.g).value)
    ensures |st.frames| > 0 && name in st.frames[|st.frames| - 1] && Typeify(vt, env.g).Success? ==>
      CheckStatement(env, st, Decl(ctx, name, vt)) == Failure(Context("Variable " + name + " already defined", ctx))
  {
  }

  /** A definition binds a variable whose constness is the definition's,
      with a value the declared type accepts. */
  lemma DefinitionBindsWithConstness(env: Env, st: State, ctx: ParseContext, name: string, vt: VarType, value: Expr, isConst: bool)
    ensures var r := CheckStatement(env, st, Def(ctx, name, vt, value, isConst));
      r.Success? ==>
        && ConstnessOf(r.value.0.frames, name) == Some(isConst)
        && TypeOfVariable(r.value.0.frames, name) == Some(Typeify(vt, env.g).value)
        && r.value.1.Def?
        && Compat(Some(Typeify(vt, env.g).value), TypeOf(r.value.1.value)) == Success(true)
  {
    var r := CheckStatement(env, st, Def(ctx, name, vt, value, isConst));
    if r.Success? {
      var t := Typeify(vt, env.g).value;
      var b := Binding(t, isConst);
      var frames := Define(st.frames, name, b, ctx).value;
      var tv := Expression(env, frames, value).value;
      assert r == Success((st.(frames := frames), Def(ctx, name, t, tv.1, isConst)));
      assert Lookup(frames, name) == Some(b);
    }
  }

  /** An assignment is accepted only to a non-const variable, with a value
      its type accepts. */
  lemma AssignmentRules(env: Env, st: State, ctx: ParseContext, target: VarAccess, value: Expr)
    ensures var r := CheckStatement(env, st, Assign(ctx, target, value));
      r.Success? ==>
        && !IsConstVariable(st.frames, target.name)
        && Expression(env, st.frames, Access(target)).Success?
        && Expression(env, st.frames, value).Success?
        && Compat(Expression(env, st.frames, Access(target)).value.0, Expression(env, st.frames, value).value.0) == Success(true)
    ensures IsConstVariable(st.frames, target.name) ==> CheckStatement(env, st, Assign(ctx, target, value)).Failure?
  {
  }

  /** A function of one parameter starts with that parameter alone in its
      base frame, const unless it is passed by reference. */
  lemma {:induction false} OneParamFrame(p: Param)
    ensures DefineParams([map[]], [p]) == Success([map[p.name := Binding(p.paramType, !p.reference)]])
  {
    var b := Binding(p.paramType, !p.reference);
    var base: Scope := [map[]];
    assert Define(base, p.name, b, p.ctx) == Success(Bind(base, p.name, b));
    assert Bind(base, p.name, b) == [map[p.name := b]];
    assert [p][1..] == [];
  }

  /** A by-value parameter is const: a body that assigns to it is
      rejected. */
  lemma AssignToValueParamFails(g: GlobalScope, f: Function, p: Param, ctx: ParseContext, value: Expr)
    requires f.params == [p] && !p.reference
    ensures var target := VarAccess(None, ctx, p.name, None, None, None);
      CheckFunction(g, f.(body := [Assign(ctx, target, value)])).Failure?
  {
    OneParamFrame(p);
    var frames: Scope := [map[p.name := Binding(p.paramType, true)]];
    assert IsConstVariable(frames, p.name);
    var target := VarAccess(None, ctx, p.name, None, None, None);
    var h := f.(body := [Assign(ctx, target, value)]);
    var st := State(frames, false);
    AssignmentRules(Env(g, h), st, ctx, target, value);
    assert CheckStatements(Env(g, h), st, h.body).Failure?;
  }

  /** A parameter cannot be declared again at the top of the body. */
  lemma RedeclaredParamFails(g: GlobalScope, f: Function, p: Param, ctx: ParseContext, vt: VarType)
    requires f.params == [p]
    requires Typeify(vt, g).Success?
    ensures CheckFunction(g, f.(body := [Decl(ctx, p.name, vt)])) == Failure(Context("Variable " + p.name + " already defined", ctx))
  {
    OneParamFrame(p);
    var frames: Scope := [map[p.name := Binding(p.paramType, !p.reference)]];
    var h := f.(body := [Decl(ctx, p.name, vt)]);
    var st := State(frames, false);
    DeclarationBindsMutable(Env(g, h), st, ctx, p.name, vt);
    assert CheckStatements(Env(g, h), st, h.body) == Failure(Context("Variable " + p.name + " already defined", ctx));
  }

  /** The condition of an if and of every elif is a bool. */
  lemma ConditionsAreBool(env: Env, st: State, ctx: ParseContext, cond: Expr, body: seq<Stmt>, elifs: seq<Elif>, eb: Option<Else>)
    ensures var r := CheckStatement(env, st, If(ctx, cond, body, elifs, eb));
      r.Success? ==>
        && r.value.1.If?
        && TypeOf(r.value.1.cond) == Some(Primitive(BOOL))
        && |r.value.1.elifs| == |elifs|
        && forall i :: 0 <= i < |elifs| ==> TypeOf(r.value.1.elifs[i].cond) == Some(Primitive(BOOL))
  {
  }

  /** A value can only be returned from a function with a return type that
      accepts it; a bare return is always accepted. */
  lemma ReturnRules(env: Env, st: State, ctx: ParseContext, v: Expr)
    ensures CheckStatement(env, st, Return(ctx, None)).Success?
    ensures env.fn.returnType.None? ==>
      CheckStatement(env, st, Return(ctx, Some(v))) == Failure(Context("Function has no return type: " + env.fn.name, ctx))
    ensures var r := CheckStatement(env, st, Return(ctx, Some(v)));
      r.Success? ==>
        && Expression(env, st.frames, v).Success?
        && Compat(env.fn.returnType, Expression(env, st.frames, v).value.0) == Success(true)
  {
    assert CheckStatement(env, st, Return(ctx, None)) == Success((st, Return(ctx, None)));
    var r := CheckStatement(env, st, Return(ctx, Some(v)));
    if r.Success? {
      var tv := Expression(env, st.frames, v);
      assert env.fn.returnType.Some? && tv.Success?;
      assert Compat(env.fn.returnType, tv.value.0) == Success(true);
    }
  }

  // ---------------------------------------------------------------------
  // The driver.

  /** The bodies are checked in order: the error reported is that of the
      first function whose body fails, tagged with its name and location. */
  lemma {:induction false} FirstFailingBody(g: GlobalScope, fs: seq<Function>, k: nat)
    requires k < |fs|
    requires forall i :: 0 <= i < k ==> CheckFunction(g, fs[i]).Success?
    requires CheckFunction(g, fs[k]).Failure?
    ensures CheckBodies(g, fs) == Failure(TagWithFunction(CheckFunction(g, fs[k]).error, fs[k].name, fs[k].ctx))
    decreases k
  {
    if k == 0 {
      assert CheckFunction(g, fs[0]).Failure?;
    } else {
      var first := CheckFunction(g, fs[0]);
      assert first.Success?;
      var tail := fs[1..];
      forall i | 0 <= i < k - 1
        ensures CheckFunction(g, tail[i]).Success?
      {
        assert tail[i] == fs[i + 1];
      }
      assert tail[k - 1] == fs[k];
      FirstFailingBody(g, tail, k - 1);
    }
  }

  /** The first phase keeps every struct's name and resolves every member type. */
  lemma StructsResolved(g: GlobalScope, structs: seq<StructType>)
    requires ResolveStructs(g, g.structs) == Success(structs)
    ensures |structs| == |g.structs|
    ensures forall i :: 0 <= i < |structs| ==> structs[i].name == g.structs[i].name
    ensures forall i, j :: 0 <= i < |structs| && 0 <= j < |structs[i].members| ==>
      IsResolved(structs[i].members[j].paramType)
  {
    forall i, j | 0 <= i < |structs| && 0 <= j < |structs[i].members|
      ensures IsResolved(structs[i].members[j].paramType)
    {
      assert ResolveStruct(g, g.structs[i]) == Success(structs[i]);
      assert ResolveMember(g, g.structs[i].name, g.structs[i].members[j]) == Success(structs[i].members[j]);
    }
    forall i | 0 <= i < |structs|
      ensures structs[i].name == g.structs[i].name
    {
      assert ResolveStruct(g, g.structs[i]) == Success(structs[i]);
    }
  }

  /** The second phase keeps every function's name and resolves every
      parameter and return type. */
  lemma SignaturesResolved(g: GlobalScope, sigs: seq<Function>)
    requires ResolveSignatures(g, g.functions) == Success(sigs)
    ensures |sigs| == |g.functions|
    ensures forall i :: 0 <= i < |sigs| ==> sigs[i].name == g.functions[i].name
    ensures forall i, j :: 0 <= i < |sigs| && 0 <= j < |sigs[i].params| ==> IsResolved(sigs[i].params[j].paramType)
    ensures forall i :: 0 <= i < |sigs| && sigs[i].returnType.Some? ==> IsResolved(sigs[i].returnType.value)
  {
    forall i, j | 0 <= i < |sigs| && 0 <= j < |sigs[i].params|
      ensures IsResolved(sigs[i].params[j].paramType)
    {
      var rp := ResolveParams(g, g.functions[i].params);
      assert ResolveSignature(g, g.functions[i]) == Success(sigs[i]);
      assert rp.Success? && rp.value == sigs[i].params;
    }
    forall i | 0 <= i < |sigs| && sigs[i].returnType.Some?
      ensures IsResolved(sigs[i].returnType.value)
    {
      assert ResolveSignature(g, g.functions[i]) == Success(sigs[i]);
    }
  }

  /** The third phase changes only the bodies. */
  lemma BodiesKeepSignatures(g: GlobalScope, bodies: seq<Function>)
    requires CheckBodies(g, g.functions) == Success(bodies)
    ensures |bodies| == |g.functions|
    ensures forall i :: 0 <= i < |bodies| ==>
      bodies[i].name == g.functions[i].name && bodies[i].params == g.functions[i].params
      && bodies[i].returnType == g.functions[i].returnType
  {
    forall i | 0 <= i < |bodies|
      ensures bodies[i].name == g.functions[i].name && bodies[i].params == g.functions[i].params
        && bodies[i].returnType == g.functions[i].returnType
    {
      assert CheckFunction(g, g.functions[i]) == Success(bodies[i]);
    }
  }

  /** The program the three phases produce, from their results. */
  lemma PhasesResolveProgram(g: GlobalScope, structs: seq<StructType>, sigs: seq<Function>, bodies: seq<Function>)
    requires ResolveStructs(g, g.structs) == Success(structs)
    requires ResolveSignatures(g.(structs := structs), g.functions) == Success(sigs)
    requires CheckBodies(g.(structs := structs, functions := sigs), sigs) == Success(bodies)
    ensures |structs| == |g.structs| && |bodies| == |g.functions|
    ensures forall i :: 0 <= i < |g.structs| ==> structs[i].name == g.structs[i].name
    ensures forall i :: 0 <= i < |g.functions| ==> bodies[i].name == g.functions[i].name
    ensures forall i, j :: 0 <= i < |structs| && 0 <= j < |structs[i].members| ==>
      IsResolved(structs[i].members[j].paramType)
    ensures forall i, j :: 0 <= i < |bodies| && 0 <= j < |bodies[i].params| ==>
      IsResolved(bodies[i].params[j].paramType)
    ensures forall i :: 0 <= i < |bodies| && bodies[i].returnType.Some? ==>
      IsResolved(bodies[i].returnType.value)
  {
    StructsResolved(g, structs);
    SignaturesResolved(g.(structs := structs), sigs);
    BodiesKeepSignatures(g.(structs := structs, functions := sigs), bodies);
  }

  /** An accepted program has every struct member, parameter and return
      type resolved, keeps its enums, structs and functions (by name and
      order), and every body was checked against the resolved signatures. */
  lemma AcceptedProgramIsResolved(g: GlobalScope)
    ensures var r := ValidationPass(g);
      r.Success? ==>
        && r.value.enums == g.enums
        && |r.value.structs| == |g.structs| && |r.value.functions| == |g.functions|
        && (forall i :: 0 <= i < |g.structs| ==> r.value.structs[i].name == g.structs[i].name)
        && (forall i :: 0 <= i < |g.functions| ==> r.value.functions[i].name == g.functions[i].name)
        && (forall i, j :: 0 <= i < |r.value.structs| && 0 <= j < |r.value.structs[i].members| ==>
              IsResolved(r.value.structs[i].members[j].paramType))
        && (forall i, j :: 0 <= i < |r.value.functions| && 0 <= j < |r.value.functions[i].params| ==>
              IsResolved(r.value.functions[i].params[j].paramType))
        && (forall i :: 0 <= i < |r.value.functions| && r.value.functions[i].returnType.Some? ==>
              IsResolved(r.value.functions[i].returnType.value))
  {
    var r := ValidationPass(g);
    if r.Success? {
      var structs := ResolveStructs(g, g.structs).value;
      var sigs := ResolveSignatures(g.(structs := structs), g.functions).value;
      var bodies := CheckBodies(g.(structs := structs, functions := sigs), sigs).value;
      assert r.value == g.(structs := structs, functions := bodies);
      PhasesResolveProgram(g, structs, sigs, bodies);
    }
  }
}

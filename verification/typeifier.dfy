/**
 * The Typeifier class and the validation_pass driver of
 * xlang/validation_pass.py as the source writes them: an object holding a
 * scope stack and a loop flag that statements update step by step, and a
 * driver that overwrites the program's types in place. Each method is
 * proved to compute what the functions of module Check specify.
 */
module Validation {
  import opened Wrappers
  import opened Ast
  import opened Exceptions
  import opened Types
  import opened Scopes
  import opened Check

  /** A method agrees with a checker function: the same error, or the same
      annotated node and the same state afterwards. */
  predicate Agrees<T(==)>(spec: Result<(State, T), Error>, r: Result<T, Error>, now: State)
  {
    && (spec.Failure? ==> r == Failure(spec.error))
    && (spec.Success? ==> r == Success(spec.value.1) && now == spec.value.0)
  }

  /** What a checker still to run over a suffix yields, with the results
      already produced for the prefix in front. */
  function Then<T>(done: seq<T>, r: Result<(State, seq<T>), Error>): (x: Result<(State, seq<T>), Error>)
    ensures done == [] ==> x == r
  {
    match r
    case Success(v) =>
      assert done == [] ==> done + v.1 == v.1;
      Success((v.0, done + v.1))
    case Failure(e) => Failure(e)
  }

  function Prepend<T>(done: seq<T>, r: Result<seq<T>, Error>): (x: Result<seq<T>, Error>)
    ensures done == [] ==> x == r
  {
    match r
    case Success(v) =>
      assert done == [] ==> done + v == v;
      Success(done + v)
    case Failure(e) => Failure(e)
  }

  /** Typeifier (validation_pass.py:73-200). */
  class Typeifier {
    const globalScope: GlobalScope
    const fn: Function
    const scopeStack: ScopeStack
    var insideLoop: bool

    function Environment(): Env
    {
      Env(globalScope, fn)
    }

    function Current(): State
      reads this, scopeStack
    {
      State(scopeStack.stack, insideLoop)
    }

    /** The field initialisations of __init__ (75-84); the parameters are
        defined by DefineParameters, the part of __init__ that can fail. */
    constructor(g: GlobalScope, f: Function)
      ensures globalScope == g && fn == f
      ensures fresh(scopeStack) && scopeStack.stack == [map[]]
      ensures !insideLoop
    {
      globalScope := g;
      fn := f;
      scopeStack := new ScopeStack();
      insideLoop := false;
    }

    /** The parameter loop of __init__ (77-82). */
    method DefineParameters() returns (r: Outcome<Error>)
      requires |scopeStack.stack| > 0
      modifies scopeStack
      ensures Check.DefineParams(old(scopeStack.stack), fn.params).Success? ==>
        r == Pass && scopeStack.stack == Check.DefineParams(old(scopeStack.stack), fn.params).value
      ensures Check.DefineParams(old(scopeStack.stack), fn.params).Failure? ==>
        r == Fail(Check.DefineParams(old(scopeStack.stack), fn.params).error)
    {
      var params := fn.params;
      ghost var spec := Check.DefineParams(scopeStack.stack, params);
      var i := 0;
      assert params[0..] == params;
      while i < |params|
        invariant 0 <= i <= |params|
        invariant |scopeStack.stack| > 0
        invariant spec == Check.DefineParams(scopeStack.stack, params[i..])
      {
        var p := params[i];
        ghost var frames := scopeStack.stack;
        assert params[i..][0] == p && params[i..][1..] == params[i + 1..];
        Check.DefineParamsStep(frames, params[i..]);
        var o := scopeStack.DefVariable(p.name, p.paramType, !p.reference, p.ctx);
        if o.Fail? {
          return o;
        }
        assert scopeStack.stack == Define(frames, p.name, Binding(p.paramType, !p.reference), p.ctx).value;
        i := i + 1;
      }
      assert params[i..] == [];
      return Pass;
    }

    /** Typeifier.statements (86-88). */
    method Statements(ss: seq<Stmt>) returns (r: Result<seq<Stmt>, Error>)
      modifies this, scopeStack
      ensures Agrees(CheckStatements(Environment(), old(Current()), ss), r, Current())
      decreases ss, 0
    {
      ghost var spec := CheckStatements(Environment(), Current(), ss);
      var out: seq<Stmt> := [];
      var i := 0;
      assert ss[0..] == ss;
      while i < |ss|
        invariant 0 <= i <= |ss|
        invariant spec == Then(out, CheckStatements(Environment(), Current(), ss[i..]))
      {
        StatementsStep(Environment(), Current(), ss, i);
        var x := Statement(ss[i]);
        if x.Failure? {
          return x.PropagateFailure();
        }
        ThenAssoc(out, [x.value], CheckStatements(Environment(), Current(), ss[i + 1..]));
        out := out + [x.value];
        i := i + 1;
      }
      assert ss[i..] == [] && out + [] == out;
      return Success(out);
    }

    /** push_scope, statements, pop_scope. */
    method Block(body: seq<Stmt>) returns (r: Result<seq<Stmt>, Error>)
      modifies this, scopeStack
      ensures Agrees(Check.Block(Environment(), old(Current()), body), r, Current())
      decreases body, 3
    {
      scopeStack.PushScope();
      var inner :- Statements(body);
      var popped := scopeStack.PopScope();
      assert popped == Pass;
      return Success(inner);
    }

    /** Typeifier.statement (90-200): one branch per kind of statement. */
    method Statement(s: Stmt) returns (r: Result<Stmt, Error>)
      modifies this, scopeStack
      ensures Agrees(CheckStatement(Environment(), old(Current()), s), r, Current())
      decreases s, 2
    {
      match s {
        case Decl(_, _, _) => r := Declaration(s);
        case Def(_, _, _, _, _) => r := Declaration(s);
        case Assign(_, _, _) => r := Assignment(s);
        case CallStmt(c) =>
          var tc :- FunctionCallType(Environment(), scopeStack.stack, c);
          return Success(CallStmt(tc.1));
        case AccessStmt(a) => r := AccessStatement(s);
        case Loop(ctx, body) =>
          var outer := insideLoop;
          insideLoop := true;
          var inner :- Block(body);
          if !outer {
            insideLoop := false;
          }
          return Success(Loop(ctx, inner));
        case If(_, _, _, _, _) => r := IfStatement(s);
        case Return(_, _) => r := ReturnStatement(s);
        case Continue(ctx) =>
          if !insideLoop {
            return Failure(Context("Continue outside loop", ctx));
          }
          return Success(s);
        case Break(ctx) =>
          if !insideLoop {
            return Failure(Context("Break outside loop", ctx));
          }
          return Success(s);
      }
    }

    /** The VariableDeclaration and VariableDefinition branches (91-112). */
    method Declaration(s: Stmt) returns (r: Result<Stmt, Error>)
      requires s.Decl? || s.Def?
      modifies scopeStack
      ensures Agrees(CheckStatement(Environment(), old(Current()), s), r, Current())
    {
      var t :- Typeify(s.varType, globalScope);
      if s.Decl? {
        :- scopeStack.DefVariable(s.name, t, false, s.ctx);
        return Success(Decl(s.ctx, s.name, t));
      }
      :- scopeStack.DefVariable(s.name, t, s.isConst, s.ctx);
      var tv :- Expression(Environment(), scopeStack.stack, s.value);
      var ok :- Compat(Some(t), tv.0);
      if !ok {
        return Failure(Mismatch("Incompatible value type", s.ctx));
      }
      return Success(Def(s.ctx, s.name, t, tv.1, s.isConst));
    }

    /** The VariableAssign branch (113-132). */
    method Assignment(s: Stmt) returns (r: Result<Stmt, Error>)
      requires s.Assign?
      ensures Agrees(CheckStatement(Environment(), Current(), s), r, Current())
    {
      var env := Environment();
      var tv :- Expression(env, scopeStack.stack, s.value);
      var tt :- Expression(env, scopeStack.stack, Access(s.target));
      if tt.0.None? {
        return Failure(Context("Unknown variable " + s.target.name, s.ctx));
      }
      var ok :- Compat(tt.0, tv.0);
      if !ok {
        return Failure(Mismatch("Incompatible value type", s.ctx));
      }
      var isConst := scopeStack.IsConst(s.target.name);
      if isConst == Some(true) {
        return Failure(Context("Cannot assign " + s.target.name + ", variable is const", s.ctx));
      }
      return Success(Assign(s.ctx, tt.1.access, tv.1));
    }

    /** The VariableAccess branch (135-144): walk to the innermost access of
        the chain, which must carry the method call. */
    method AccessStatement(s: Stmt) returns (r: Result<Stmt, Error>)
      requires s.AccessStmt?
      ensures Agrees(CheckStatement(Environment(), Current(), s), r, Current())
    {
      var current := s.access;
      while current.member.Some?
        invariant Innermost(current) == Innermost(s.access)
        decreases current
      {
        current := current.member.value;
      }
      if current.methodCall.None? {
        return Failure(Context("Variable access as statement must end with a method call", s.access.ctx));
      }
      var ta :- VariableAccessType(Environment(), scopeStack.stack, s.access);
      return Success(AccessStmt(ta.1));
    }

    /** The If branch (153-179): condition, body, else body, then the elifs. */
    method IfStatement(s: Stmt) returns (r: Result<Stmt, Error>)
      requires s.If?
      modifies this, scopeStack
      ensures Agrees(CheckStatement(Environment(), old(Current()), s), r, Current())
      decreases s, 1
    {
      var env := Environment();
      var tc :- Expression(env, scopeStack.stack, s.cond);
      var ct :- RequireType(tc.0);
      if ct != Primitive(BOOL) {
        return Failure(Mismatch("If statement expression is not bool", ContextOf(s.cond)));
      }
      var b :- Block(s.body);
      var e: Option<Else> := None;
      if s.elseBranch.Some? {
        var x :- Block(s.elseBranch.value.body);
        e := Some(Else(s.elseBranch.value.ctx, x));
      }
      var elifs :- Elifs(s.elifs);
      return Success(If(s.ctx, tc.1, b, elifs, e));
    }

    /** The elif loop of the If branch (167-179). */
    method Elifs(elifs: seq<Elif>) returns (r: Result<seq<Elif>, Error>)
      modifies this, scopeStack
      ensures Agrees(CheckElifs(Environment(), old(Current()), elifs), r, Current())
      decreases elifs, 0
    {
      ghost var st := Current();
      var out: seq<Elif> := [];
      var j := 0;
      assert elifs[0..] == elifs;
      while j < |elifs|
        invariant 0 <= j <= |elifs|
        invariant Current() == st
        invariant CheckElifs(Environment(), st, elifs) == Then(out, CheckElifs(Environment(), st, elifs[j..]))
      {
        ElifsStep(Environment(), st, elifs, j);
        var x := ElifBranch(elifs[j]);
        if x.Failure? {
          return x.PropagateFailure();
        }
        ThenAssoc(out, [x.value], CheckElifs(Environment(), st, elifs[j + 1..]));
        out := out + [x.value];
        j := j + 1;
      }
      assert elifs[j..] == [] && out + [] == out;
      return Success(out);
    }

    /** One elif: its condition must be a bool, then its body. */
    method ElifBranch(el: Elif) returns (r: Result<Elif, Error>)
      modifies this, scopeStack
      ensures Agrees(CheckElif(Environment(), old(Current()), el), r, Current())
      decreases el, 5
    {
      var te :- Expression(Environment(), scopeStack.stack, el.cond);
      var ct :- RequireType(te.0);
      if ct != Primitive(BOOL) {
        return Failure(Mismatch("Elif statement expression is not bool", ContextOf(el.cond)));
      }
      var b :- Block(el.body);
      return Success(Elif(el.ctx, te.1, b));
    }

    /** The Return branch (180-193). */
    method ReturnStatement(s: Stmt) returns (r: Result<Stmt, Error>)
      requires s.Return?
      ensures Agrees(CheckStatement(Environment(), Current(), s), r, Current())
    {
      if s.returnValue.None? {
        return Success(s);
      }
      if fn.returnType.None? {
        return Failure(Context("Function has no return type: " + fn.name, s.ctx));
      }
      var tv :- Expression(Environment(), scopeStack.stack, s.returnValue.value);
      var ok :- Compat(fn.returnType, tv.0);
      if !ok {
        return Failure(Context("Returned value is incompatible with function return type", s.ctx));
      }
      return Success(Return(s.ctx, Some(tv.1)));
    }
  }

  lemma ThenAssoc<T>(a: seq<T>, b: seq<T>, r: Result<(State, seq<T>), Error>)
    ensures Then(a, Then(b, r)) == Then(a + b, r)
  {
    if r.Success? {
      assert a + (b + r.value.1) == (a + b) + r.value.1;
    }
  }

  lemma StatementsStep(env: Env, st: State, ss: seq<Stmt>, i: nat)
    requires i < |ss|
    ensures CheckStatement(env, st, ss[i]).Failure? ==>
      CheckStatements(env, st, ss[i..]) == Failure(CheckStatement(env, st, ss[i]).error)
    ensures CheckStatement(env, st, ss[i]).Success? ==>
      var x := CheckStatement(env, st, ss[i]).value;
      CheckStatements(env, st, ss[i..]) == Then([x.1], CheckStatements(env, x.0, ss[i + 1..]))
  {
    assert ss[i..][0] == ss[i] && ss[i..][1..] == ss[i + 1..];
  }

  lemma ElifsStep(env: Env, st: State, elifs: seq<Elif>, j: nat)
    requires j < |elifs|
    ensures CheckElif(env, st, elifs[j]).Failure? ==>
      CheckElifs(env, st, elifs[j..]) == Failure(CheckElif(env, st, elifs[j]).error)
    ensures CheckElif(env, st, elifs[j]).Success? ==>
      var x := CheckElif(env, st, elifs[j]).value;
      CheckElifs(env, st, elifs[j..]) == Then([x.1], CheckElifs(env, x.0, elifs[j + 1..]))
  {
    assert elifs[j..][0] == elifs[j] && elifs[j..][1..] == elifs[j + 1..];
  }

  lemma PrependAssoc<T>(a: seq<T>, b: seq<T>, r: Result<seq<T>, Error>)
    ensures Prepend(a, Prepend(b, r)) == Prepend(a + b, r)
  {
    if r.Success? {
      assert a + (b + r.value) == (a + b) + r.value;
    }
  }

  lemma MembersStep(g: GlobalScope, name: string, ms: seq<Member>, j: nat)
    requires j < |ms|
    ensures ResolveMember(g, name, ms[j]).Failure? ==>
      ResolveMembers(g, name, ms[j..]) == Failure(ResolveMember(g, name, ms[j]).error)
    ensures ResolveMember(g, name, ms[j]).Success? ==>
      ResolveMembers(g, name, ms[j..]) == Prepend([ResolveMember(g, name, ms[j]).value], ResolveMembers(g, name, ms[j + 1..]))
  {
    assert ms[j..][0] == ms[j] && ms[j..][1..] == ms[j + 1..];
  }

  lemma ParamsStep(g: GlobalScope, ps: seq<Param>, j: nat)
    requires j < |ps|
    ensures Typeify(ps[j].paramType, g).Failure? ==>
      ResolveParams(g, ps[j..]) == Failure(Typeify(ps[j].paramType, g).error)
    ensures Typeify(ps[j].paramType, g).Success? ==>
      ResolveParams(g, ps[j..]) == Prepend([ps[j].(paramType := Typeify(ps[j].paramType, g).value)], ResolveParams(g, ps[j + 1..]))
  {
    assert ps[j..][0] == ps[j] && ps[j..][1..] == ps[j + 1..];
  }

  lemma StructsStep(g: GlobalScope, ss: seq<StructType>, j: nat)
    requires j < |ss|
    ensures ResolveStruct(g, ss[j]).Failure? ==>
      ResolveStructs(g, ss[j..]) == Failure(ResolveStruct(g, ss[j]).error)
    ensures ResolveStruct(g, ss[j]).Success? ==>
      ResolveStructs(g, ss[j..]) == Prepend([ResolveStruct(g, ss[j]).value], ResolveStructs(g, ss[j + 1..]))
  {
    assert ss[j..][0] == ss[j] && ss[j..][1..] == ss[j + 1..];
  }

  lemma SignaturesStep(g: GlobalScope, fs: seq<Function>, j: nat)
    requires j < |fs|
    ensures ResolveSignature(g, fs[j]).Failure? ==>
      ResolveSignatures(g, fs[j..]) == Failure(ResolveSignature(g, fs[j]).error)
    ensures ResolveSignature(g, fs[j]).Success? ==>
      ResolveSignatures(g, fs[j..]) == Prepend([ResolveSignature(g, fs[j]).value], ResolveSignatures(g, fs[j + 1..]))
  {
    assert fs[j..][0] == fs[j] && fs[j..][1..] == fs[j + 1..];
  }

  lemma BodiesStep(g: GlobalScope, fs: seq<Function>, j: nat)
    requires j < |fs|
    ensures CheckFunction(g, fs[j]).Failure? ==>
      CheckBodies(g, fs[j..]) == Failure(TagWithFunction(CheckFunction(g, fs[j]).error, fs[j].name, fs[j].ctx))
    ensures CheckFunction(g, fs[j]).Success? ==>
      CheckBodies(g, fs[j..]) == Prepend([CheckFunction(g, fs[j]).value], CheckBodies(g, fs[j + 1..]))
  {
    assert fs[j..][0] == fs[j] && fs[j..][1..] == fs[j + 1..];
  }

  /** Storing the next result in place extends the resolved prefix by it. */
  lemma StoreStep<T>(xs: seq<T>, j: nat, x: T, rest: Result<seq<T>, Error>)
    requires j < |xs|
    ensures Prepend(xs[..j], Prepend([x], rest)) == Prepend(xs[j := x][..j + 1], rest)
    ensures xs[j := x][j + 1..] == xs[j + 1..]
  {
    PrependAssoc(xs[..j], [x], rest);
    assert xs[j := x][..j + 1] == xs[..j] + [x];
  }

  /** The member loop of the first phase (678-708) for one struct. */
  method ResolveStructInPlace(g: GlobalScope, s: StructType) returns (r: Result<StructType, Error>)
    ensures r == ResolveStruct(g, s)
  {
    var members := s.members;
    var j := 0;
    assert s.members[0..] == s.members;
    while j < |members|
      invariant 0 <= j <= |members| == |s.members|
      invariant members[j..] == s.members[j..]
      invariant ResolveMembers(g, s.name, s.members) == Prepend(members[..j], ResolveMembers(g, s.name, s.members[j..]))
    {
      assert members[j] == s.members[j] && members[j + 1..] == s.members[j + 1..] by {
        assert members[j..][0] == members[j] && members[j..][1..] == members[j + 1..];
        assert s.members[j..][0] == s.members[j] && s.members[j..][1..] == s.members[j + 1..];
      }
      MembersStep(g, s.name, s.members, j);
      var m := ResolveMember(g, s.name, members[j]);
      if m.Failure? {
        assert ResolveMembers(g, s.name, s.members) == Failure(m.error);
        return Failure(m.error);
      }
      StoreStep(members, j, m.value, ResolveMembers(g, s.name, s.members[j + 1..]));
      members := members[j := m.value];
      j := j + 1;
    }
    assert s.members[j..] == [] && members[..j] == members && members + [] == members;
    assert ResolveMembers(g, s.name, s.members) == Success(members);
    return Success(s.(members := members));
  }

  /** The second phase (710-718) for one function. */
  method ResolveSignatureInPlace(g: GlobalScope, f: Function) returns (r: Result<Function, Error>)
    ensures r == ResolveSignature(g, f)
  {
    var resolved := f;
    if f.returnType.Some? {
      var u := Typeify(f.returnType.value, g);
      if u.Failure? {
        return Failure(u.error);
      }
      resolved := resolved.(returnType := Some(u.value));
    }
    var params := f.params;
    var j := 0;
    assert f.params[0..] == f.params;
    while j < |params|
      invariant 0 <= j <= |params| == |f.params|
      invariant params[j..] == f.params[j..]
      invariant ResolveParams(g, f.params) == Prepend(params[..j], ResolveParams(g, f.params[j..]))
    {
      assert params[j] == f.params[j] && params[j + 1..] == f.params[j + 1..] by {
        assert params[j..][0] == params[j] && params[j..][1..] == params[j + 1..];
        assert f.params[j..][0] == f.params[j] && f.params[j..][1..] == f.params[j + 1..];
      }
      ParamsStep(g, f.params, j);
      var t := Typeify(params[j].paramType, g);
      if t.Failure? {
        assert ResolveParams(g, f.params) == Failure(t.error);
        return Failure(t.error);
      }
      StoreStep(params, j, params[j].(paramType := t.value), ResolveParams(g, f.params[j + 1..]));
      params := params[j := params[j].(paramType := t.value)];
      j := j + 1;
    }
    assert f.params[j..] == [] && params[..j] == params && params + [] == params;
    assert ResolveParams(g, f.params) == Success(params);
    return Success(resolved.(params := params));
  }

  /** One iteration of the third phase (720-728) before tagging: a fresh
      Typeifier, its parameters, then the body. */
  method CheckFunctionInPlace(g: GlobalScope, f: Function) returns (r: Result<Function, Error>)
    ensures r == CheckFunction(g, f)
  {
    var t := new Typeifier(g, f);
    :- t.DefineParameters();
    var body :- t.Statements(f.body);
    return Success(f.(body := body));
  }

  /** The first phase (678-708): every struct's members in place. */
  method ResolveStructsInPlace(g: GlobalScope) returns (r: Result<seq<StructType>, Error>)
    ensures r == ResolveStructs(g, g.structs)
  {
    var structs := g.structs;
    var i := 0;
    assert g.structs[0..] == g.structs;
    while i < |structs|
      invariant 0 <= i <= |structs| == |g.structs|
      invariant structs[i..] == g.structs[i..]
      invariant ResolveStructs(g, g.structs) == Prepend(structs[..i], ResolveStructs(g, g.structs[i..]))
    {
      assert structs[i] == g.structs[i] && structs[i + 1..] == g.structs[i + 1..] by {
        assert structs[i..][0] == structs[i] && structs[i..][1..] == structs[i + 1..];
        assert g.structs[i..][0] == g.structs[i] && g.structs[i..][1..] == g.structs[i + 1..];
      }
      StructsStep(g, g.structs, i);
      var s := ResolveStructInPlace(g, structs[i]);
      if s.Failure? {
        assert ResolveStructs(g, g.structs) == Failure(s.error);
        return Failure(s.error);
      }
      StoreStep(structs, i, s.value, ResolveStructs(g, g.structs[i + 1..]));
      structs := structs[i := s.value];
      i := i + 1;
    }
    assert g.structs[i..] == [] && structs[..i] == structs && structs + [] == structs;
    return Success(structs);
  }

  /** The second phase (710-718): every signature in place. */
  method ResolveSignaturesInPlace(g: GlobalScope) returns (r: Result<seq<Function>, Error>)
    ensures r == ResolveSignatures(g, g.functions)
  {
    var functions := g.functions;
    var i := 0;
    assert g.functions[0..] == g.functions;
    while i < |functions|
      invariant 0 <= i <= |functions| == |g.functions|
      invariant functions[i..] == g.functions[i..]
      invariant ResolveSignatures(g, g.functions) == Prepend(functions[..i], ResolveSignatures(g, g.functions[i..]))
    {
      assert functions[i] == g.functions[i] && functions[i + 1..] == g.functions[i + 1..] by {
        assert functions[i..][0] == functions[i] && functions[i..][1..] == functions[i + 1..];
        assert g.functions[i..][0] == g.functions[i] && g.functions[i..][1..] == g.functions[i + 1..];
      }
      SignaturesStep(g, g.functions, i);
      var f := ResolveSignatureInPlace(g, functions[i]);
      if f.Failure? {
        assert ResolveSignatures(g, g.functions) == Failure(f.error);
        return Failure(f.error);
      }
      StoreStep(functions, i, f.value, ResolveSignatures(g, g.functions[i + 1..]));
      functions := functions[i := f.value];
      i := i + 1;
    }
    assert g.functions[i..] == [] && functions[..i] == functions && functions + [] == functions;
    return Success(functions);
  }

  /** The third phase (720-728): every body, with a ContextException tagged
      with the function it was raised in. */
  method CheckBodiesInPlace(g: GlobalScope) returns (r: Result<seq<Function>, Error>)
    ensures r == CheckBodies(g, g.functions)
  {
    var bodies := g.functions;
    var i := 0;
    assert g.functions[0..] == g.functions;
    while i < |bodies|
      invariant 0 <= i <= |bodies| == |g.functions|
      invariant bodies[i..] == g.functions[i..]
      invariant CheckBodies(g, g.functions) == Prepend(bodies[..i], CheckBodies(g, g.functions[i..]))
    {
      assert bodies[i] == g.functions[i] && bodies[i + 1..] == g.functions[i + 1..] by {
        assert bodies[i..][0] == bodies[i] && bodies[i..][1..] == bodies[i + 1..];
        assert g.functions[i..][0] == g.functions[i] && g.functions[i..][1..] == g.functions[i + 1..];
      }
      var f := bodies[i];
      BodiesStep(g, g.functions, i);
      var checked := CheckFunctionInPlace(g, f);
      if checked.Failure? {
        assert CheckBodies(g, g.functions) == Failure(TagWithFunction(checked.error, f.name, f.ctx));
        return Failure(TagWithFunction(checked.error, f.name, f.ctx));
      }
      StoreStep(bodies, i, checked.value, CheckBodies(g, g.functions[i + 1..]));
      bodies := bodies[i := checked.value];
      i := i + 1;
    }
    assert g.functions[i..] == [] && bodies[..i] == bodies && bodies + [] == bodies;
    return Success(bodies);
  }

  /** validation_pass (676-728). */
  method ValidatePass(g: GlobalScope) returns (r: Result<GlobalScope, Error>)
    ensures r == ValidationPass(g)
  {
    var structs :- ResolveStructsInPlace(g);
    var g1 := g.(structs := structs);
    var functions :- ResolveSignaturesInPlace(g1);
    var g2 := g1.(functions := functions);
    var bodies :- CheckBodiesInPlace(g2);
    return Success(g2.(functions := bodies));
  }
}
